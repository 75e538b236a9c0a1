/** The script interpreter: a flat machine over bytes, and the structured program it runs. */
module ScriptVM {
  import opened Wire

  const OP_PUSHDATA1: byte := 0x4c
  const OP_PUSHDATA2: byte := 0x4d
  const OP_1: byte := 0x51
  const OP_16: byte := 0x60
  const OP_IF: byte := 0x63
  const OP_NOTIF: byte := 0x64
  const OP_ELSE: byte := 0x67
  const OP_ENDIF: byte := 0x68
  const OP_DUP: byte := 0x76
  const OP_EQUAL: byte := 0x87
  const OP_EQUALVERIFY: byte := 0x88
  const OP_HASH160: byte := 0xa9
  const OP_CHECKSIG: byte := 0xac
  const OP_CHECKMULTISIG: byte := 0xae

  type Stack = seq<Script>

  datatype ScriptError = MalformedScript | ScriptEval | UnsupportedScript

  /** Hashing and signature checks are foreign; an absent hook counts as failure. */
  datatype Hooks = Hooks(
    hash160: Script -> Script, checkSig: Option<(Script, Script) -> bool>,
    checkMultiSig: Option<(seq<Script>, seq<Script>) -> bool>)

  // ----- Tokens -----

  datatype Token = Push(data: Script) | Op(code: byte) | If(negate: bool) | Else | EndIf

  /** The token at `pc` and where the next one starts; None when its data runs past the end. */
  function Lex(p: Script, pc: nat): (r: Option<(Token, nat)>)
    requires pc < |p|
    ensures r.Some? ==> pc < r.value.1 <= |p|
  {
    var op := p[pc] as int;
    if op == 0 then Some((Push([]), pc + 1))
    else if 0x51 <= op <= 0x60 then Some((Push([(op - 0x50) as byte]), pc + 1))
    else if op <= 75 then Data(p, pc + 1, op)
    else if op == 0x4c then if pc + 2 > |p| then None else Data(p, pc + 2, p[pc + 1] as int)
    else if op == 0x4d then if pc + 3 > |p| then None else Data(p, pc + 3, p[pc + 1] as int + 256 * p[pc + 2] as int)
    else if op == 0x63 then Some((If(false), pc + 1))
    else if op == 0x64 then Some((If(true), pc + 1))
    else if op == 0x67 then Some((Else, pc + 1))
    else if op == 0x68 then Some((EndIf, pc + 1))
    else Some((Op(p[pc]), pc + 1))
  }

  function Data(p: Script, pc: nat, size: nat): Option<(Token, nat)> {
    if pc + size > |p| then None else Some((Push(p[pc..pc + size]), pc + size))
  }

  function Tokens(p: Script, pc: nat): Option<seq<Token>>
    requires pc <= |p|
    decreases |p| - pc
  {
    if pc == |p| then Some([])
    else
      var t := Lex(p, pc);
      if t.None? then None
      else
        var rest := Tokens(p, t.value.1);
        if rest.None? then None else Some([t.value.0] + rest.value)
  }

  /** The depth walk: ELSE and ENDIF only inside a conditional, and all closed at the end. */
  predicate Walk(tokens: seq<Token>, depth: nat) {
    if |tokens| == 0 then depth == 0
    else
      match tokens[0]
      case If(_) => Walk(tokens[1..], depth + 1)
      case Else => depth > 0 && Walk(tokens[1..], depth)
      case EndIf => depth > 0 && Walk(tokens[1..], depth - 1)
      case _ => Walk(tokens[1..], depth)
  }

  predicate WellFormed(p: Script) {
    var tokens := Tokens(p, 0);
    tokens.Some? && Walk(tokens.value, 0)
  }

  /** The rest of the program is acceptable from here. */
  predicate FitFrom(p: Script, pc: nat, depth: nat)
    requires pc <= |p|
  {
    var tokens := Tokens(p, pc);
    tokens.Some? && Walk(tokens.value, depth)
  }

  lemma FitNext(p: Script, pc: nat, depth: nat)
    requires pc < |p|
    ensures var t := Lex(p, pc);
      FitFrom(p, pc, depth) <==>
        t.Some? && match t.value.0
                   case If(_) => FitFrom(p, t.value.1, depth + 1)
                   case Else => depth > 0 && FitFrom(p, t.value.1, depth)
                   case EndIf => depth > 0 && FitFrom(p, t.value.1, depth - 1)
                   case _ => FitFrom(p, t.value.1, depth)
  {
    var t := Lex(p, pc);
    hide Lex;
    if t.Some? && Tokens(p, t.value.1).Some? {
      var rest := Tokens(p, t.value.1).value;
      assert ([t.value.0] + rest)[1..] == rest;
    }
  }

  /** The validator's loop over bytes. */
  method ValidateScriptStructure(program: Script) returns (ok: bool)
    ensures ok <==> WellFormed(program)
  {
    var depth: nat, pc := 0, 0;
    hide Walk, Tokens;
    assert WellFormed(program) == FitFrom(program, 0, 0);
    while pc < |program|
      invariant 0 <= pc <= |program| && FitFrom(program, pc, depth) == WellFormed(program)
      decreases |program| - pc
    {
      FitNext(program, pc, depth);
      hide FitFrom, WellFormed;
      var op := program[pc];
      pc := pc + 1;
      if op == 0 {
        continue;
      } else if 1 <= op <= 75 {
        if pc + op as int > |program| {
          return false;
        }
        pc := pc + op as int;
      } else if op == OP_PUSHDATA1 {
        if pc + 1 > |program| {
          return false;
        }
        var size := program[pc] as int;
        pc := pc + 1;
        if pc + size > |program| {
          return false;
        }
        pc := pc + size;
      } else if op == OP_PUSHDATA2 {
        if pc + 2 > |program| {
          return false;
        }
        var size := program[pc] as int + 256 * program[pc + 1] as int;
        pc := pc + 2;
        if pc + size > |program| {
          return false;
        }
        pc := pc + size;
      } else if op == OP_IF || op == OP_NOTIF {
        depth := depth + 1;
      } else if op == OP_ELSE {
        if depth == 0 {
          return false;
        }
      } else if op == OP_ENDIF {
        if depth == 0 {
          return false;
        }
        depth := depth - 1;
      }
    }
    EndFits(program, depth);
    ok := depth == 0;
  }

  lemma EndFits(p: Script, depth: nat)
    ensures FitFrom(p, |p|, depth) <==> depth == 0
  {
  }

  // ----- Structured programs -----

  /** Straight-line steps and conditionals; a conditional has one arm more than it has ELSEs. */
  datatype Code = Done | Then(step: Token, rest: Code) | Cond(negate: bool, arms: Arms, rest: Code)

  datatype Arms = Last(body: Code) | More(body: Code, others: Arms)

  predicate Plain(t: Token) {
    t.Push? || t.Op?
  }

  predicate Proper(c: Code) {
    match c
    case Done => true
    case Then(step, rest) => Plain(step) && Proper(rest)
    case Cond(_, arms, rest) => ProperArms(arms) && Proper(rest)
  }

  predicate ProperArms(a: Arms) {
    match a
    case Last(body) => Proper(body)
    case More(body, others) => Proper(body) && ProperArms(others)
  }

  function Flatten(c: Code): seq<Token> {
    match c
    case Done => []
    case Then(step, rest) => [step] + Flatten(rest)
    case Cond(negate, arms, rest) => [If(negate)] + FlattenArms(arms) + [EndIf] + Flatten(rest)
  }

  function FlattenArms(a: Arms): seq<Token> {
    match a
    case Last(body) => Flatten(body)
    case More(body, others) => Flatten(body) + [Else] + FlattenArms(others)
  }

  /** Reads one block: up to the end, an ELSE or an ENDIF that is not its own. */
  function ParseCode(ts: seq<Token>): (r: Option<(Code, seq<Token>)>)
    ensures r.Some? ==> |r.value.1| <= |ts|
    decreases |ts|, 0
  {
    if |ts| == 0 || ts[0].Else? || ts[0].EndIf? then Some((Done, ts))
    else if ts[0].If? then
      var arms := ParseArms(ts[1..]);
      if arms.None? then None
      else
        var rest := ParseCode(arms.value.1);
        if rest.None? then None else Some((Cond(ts[0].negate, arms.value.0, rest.value.0), rest.value.1))
    else
      var rest := ParseCode(ts[1..]);
      if rest.None? then None else Some((Then(ts[0], rest.value.0), rest.value.1))
  }

  /** Reads the arms of a conditional and its ENDIF. */
  function ParseArms(ts: seq<Token>): (r: Option<(Arms, seq<Token>)>)
    ensures r.Some? ==> |r.value.1| < |ts|
    decreases |ts|, 1
  {
    var body := ParseCode(ts);
    if body.None? || |body.value.1| == 0 then None
    else
      var after := body.value.1;
      if after[0].EndIf? then Some((Last(body.value.0), after[1..]))
      else if after[0].Else? then
        var others := ParseArms(after[1..]);
        if others.None? then None else Some((More(body.value.0, others.value.0), others.value.1))
      else None
  }

  predicate Stops(ts: seq<Token>) {
    |ts| == 0 || ts[0].Else? || ts[0].EndIf?
  }

  // One unfolding each, on concatenations.

  lemma FlatThen(step: Token, rest: Code, tail: seq<Token>)
    ensures Flatten(Then(step, rest)) + tail == [step] + (Flatten(rest) + tail)
  {
  }

  lemma FlatCond(negate: bool, arms: Arms, rest: Code, tail: seq<Token>)
    ensures Flatten(Cond(negate, arms, rest)) + tail == [If(negate)] + (FlattenArms(arms) + [EndIf] + (Flatten(rest) + tail))
  {
  }

  lemma FlatLast(body: Code, tail: seq<Token>)
    ensures FlattenArms(Last(body)) + [EndIf] + tail == Flatten(body) + ([EndIf] + tail)
  {
  }

  lemma FlatMore(body: Code, others: Arms, tail: seq<Token>)
    ensures FlattenArms(More(body, others)) + [EndIf] + tail == Flatten(body) + ([Else] + (FlattenArms(others) + [EndIf] + tail))
  {
  }

  lemma FlatDone(tail: seq<Token>)
    ensures Flatten(Done) + tail == tail
  {
  }

  lemma HeadTail<T>(x: T, xs: seq<T>)
    ensures ([x] + xs)[0] == x && ([x] + xs)[1..] == xs
  {
  }

  lemma Uncons<T>(xs: seq<T>)
    requires |xs| > 0
    ensures xs == [xs[0]] + xs[1..]
  {
  }

  lemma ParseThen(step: Token, ts: seq<Token>)
    requires Plain(step)
    ensures var r := ParseCode(ts);
      ParseCode([step] + ts) == if r.None? then None else Some((Then(step, r.value.0), r.value.1))
  {
    HeadTail(step, ts);
  }

  lemma ParseIf(negate: bool, ts: seq<Token>)
    ensures var arms := ParseArms(ts);
      ParseCode([If(negate)] + ts) ==
        if arms.None? then None
        else
          var rest := ParseCode(arms.value.1);
          if rest.None? then None else Some((Cond(negate, arms.value.0, rest.value.0), rest.value.1))
  {
    HeadTail(If(negate), ts);
    hide ParseArms;
  }

  lemma ParseStop(ts: seq<Token>)
    requires Stops(ts)
    ensures ParseCode(ts) == Some((Done, ts))
  {
    hide ParseArms;
  }

  lemma ParseLast(ts: seq<Token>, body: Code, tail: seq<Token>)
    requires ParseCode(ts) == Some((body, [EndIf] + tail))
    ensures ParseArms(ts) == Some((Last(body), tail))
  {
    hide ParseCode;
    HeadTail(EndIf, tail);
  }

  lemma ParseMore(ts: seq<Token>, body: Code, more: seq<Token>)
    requires ParseCode(ts) == Some((body, [Else] + more))
    ensures var others := ParseArms(more);
      ParseArms(ts) == if others.None? then None else Some((More(body, others.value.0), others.value.1))
  {
    hide ParseCode;
    HeadTail(Else, more);
  }

  /** Parsing a flattened block gives the block back. */
  lemma {:induction false} ParseFlatten(c: Code, rest: seq<Token>)
    requires Proper(c) && Stops(rest)
    ensures ParseCode(Flatten(c) + rest) == Some((c, rest))
    decreases c
  {
    hide Flatten, FlattenArms, ParseCode, ParseArms, Stops;
    match c
    case Done =>
      FlatDone(rest);
      ParseStop(rest);
    case Then(step, more) =>
      ParseFlatten(more, rest);
      FlatThen(step, more, rest);
      ParseThen(step, Flatten(more) + rest);
    case Cond(negate, arms, more) =>
      ParseFlatten(more, rest);
      ParseFlattenArms(arms, Flatten(more) + rest);
      FlatCond(negate, arms, more, rest);
      ParseIf(negate, FlattenArms(arms) + [EndIf] + (Flatten(more) + rest));
  }

  lemma {:induction false} ParseFlattenArms(a: Arms, rest: seq<Token>)
    requires ProperArms(a)
    ensures ParseArms(FlattenArms(a) + [EndIf] + rest) == Some((a, rest))
    decreases a
  {
    hide Flatten, FlattenArms, ParseCode, ParseArms;
    match a
    case Last(body) =>
      ParseFlatten(body, [EndIf] + rest);
      FlatLast(body, rest);
      ParseLast(Flatten(body) + ([EndIf] + rest), body, rest);
    case More(body, others) =>
      var tail := FlattenArms(others) + [EndIf] + rest;
      ParseFlatten(body, [Else] + tail);
      ParseFlattenArms(others, rest);
      FlatMore(body, others, rest);
      ParseMore(Flatten(body) + ([Else] + tail), body, tail);
  }

  /** A program has at most one structure. */
  lemma StructureUnique(a: Code, b: Code)
    requires Proper(a) && Proper(b) && Flatten(a) == Flatten(b)
    ensures a == b
  {
    ParseFlatten(a, []);
    ParseFlatten(b, []);
    assert Flatten(a) + [] == Flatten(a) && Flatten(b) + [] == Flatten(b);
  }

  lemma WalkHead(t: Token, ts: seq<Token>, depth: nat)
    ensures Walk([t] + ts, depth) <==>
      match t
      case If(_) => Walk(ts, depth + 1)
      case Else => depth > 0 && Walk(ts, depth)
      case EndIf => depth > 0 && Walk(ts, depth - 1)
      case _ => Walk(ts, depth)
  {
    HeadTail(t, ts);
  }

  lemma WalkOpen(ts: seq<Token>, depth: nat)
    requires Walk(ts, depth) && depth > 0
    ensures |ts| > 0
  {
  }

  /** Parsing a walkable program succeeds, and what it read flattens back. */
  lemma {:induction false} ParseWalk(ts: seq<Token>, depth: nat)
    requires Walk(ts, depth)
    ensures var r := ParseCode(ts);
      && r.Some? && Proper(r.value.0) && ts == Flatten(r.value.0) + r.value.1
      && Stops(r.value.1) && Walk(r.value.1, depth)
    decreases |ts|, 0
  {
    hide Flatten, FlattenArms, ParseCode, ParseArms, Walk;
    if Stops(ts) {
      ParseStop(ts);
      FlatDone(ts);
    } else {
      Uncons(ts);
      WalkHead(ts[0], ts[1..], depth);
      if ts[0].If? {
        ParseArmsWalk(ts[1..], depth + 1);
        ParseIf(ts[0].negate, ts[1..]);
        var (arms, after) := ParseArms(ts[1..]).value;
        ParseWalk(after, depth);
        var (rest, tail) := ParseCode(after).value;
        FlatCond(ts[0].negate, arms, rest, tail);
      } else {
        ParseWalk(ts[1..], depth);
        ParseThen(ts[0], ts[1..]);
        var (rest, tail) := ParseCode(ts[1..]).value;
        FlatThen(ts[0], rest, tail);
      }
    }
  }

  lemma {:induction false} ParseArmsWalk(ts: seq<Token>, depth: nat)
    requires depth > 0 && Walk(ts, depth)
    ensures var r := ParseArms(ts);
      r.Some? && ProperArms(r.value.0) && ts == FlattenArms(r.value.0) + [EndIf] + r.value.1 && Walk(r.value.1, depth - 1)
    decreases |ts|, 1
  {
    hide Flatten, FlattenArms, ParseCode, ParseArms, Walk;
    ParseWalk(ts, depth);
    var (body, after) := ParseCode(ts).value;
    WalkOpen(after, depth);
    Uncons(after);
    WalkHead(after[0], after[1..], depth);
    if after[0].Else? {
      ParseArmsWalk(after[1..], depth);
      ParseMore(ts, body, after[1..]);
      var (others, tail) := ParseArms(after[1..]).value;
      FlatMore(body, others, tail);
    } else {
      ParseLast(ts, body, after[1..]);
      FlatLast(body, after[1..]);
    }
  }

  /** Flattened programs pass the walk. */
  lemma {:induction false} WalkFlatten(c: Code, rest: seq<Token>, depth: nat)
    requires Proper(c)
    ensures Walk(Flatten(c) + rest, depth) <==> Walk(rest, depth)
    decreases c
  {
    hide Flatten, FlattenArms, Walk;
    match c
    case Done =>
      FlatDone(rest);
    case Then(step, more) =>
      WalkFlatten(more, rest, depth);
      FlatThen(step, more, rest);
      WalkHead(step, Flatten(more) + rest, depth);
    case Cond(negate, arms, more) =>
      WalkFlatten(more, rest, depth);
      WalkFlattenArms(arms, Flatten(more) + rest, depth);
      FlatCond(negate, arms, more, rest);
      WalkHead(If(negate), FlattenArms(arms) + [EndIf] + (Flatten(more) + rest), depth);
  }

  lemma {:induction false} WalkFlattenArms(a: Arms, rest: seq<Token>, depth: nat)
    requires ProperArms(a)
    ensures Walk(FlattenArms(a) + [EndIf] + rest, depth + 1) <==> Walk(rest, depth)
    decreases a
  {
    hide Flatten, FlattenArms, Walk;
    match a
    case Last(body) =>
      WalkFlatten(body, [EndIf] + rest, depth + 1);
      FlatLast(body, rest);
      WalkHead(EndIf, rest, depth + 1);
    case More(body, others) =>
      var tail := FlattenArms(others) + [EndIf] + rest;
      WalkFlatten(body, [Else] + tail, depth + 1);
      WalkFlattenArms(others, rest, depth);
      FlatMore(body, others, rest);
      WalkHead(Else, tail, depth + 1);
  }

  /** The validator accepts exactly the programs that have a structure, and that structure is one. */
  lemma WellFormedIffStructured(p: Script)
    ensures WellFormed(p) <==> exists c :: Proper(c) && Tokens(p, 0) == Some(Flatten(c))
    ensures forall a, b :: Proper(a) && Proper(b) && Tokens(p, 0) == Some(Flatten(a)) && Tokens(p, 0) == Some(Flatten(b)) ==> a == b
  {
    hide Tokens;
    if WellFormed(p) {
      var c := StructureOf(p);
    }
    if c :| Proper(c) && Tokens(p, 0) == Some(Flatten(c)) {
      WalkFlatten(c, [], 0);
      assert Flatten(c) + [] == Flatten(c);
    }
    forall a, b | Proper(a) && Proper(b) && Tokens(p, 0) == Some(Flatten(a)) && Tokens(p, 0) == Some(Flatten(b))
      ensures a == b
    {
      StructureUnique(a, b);
    }
  }

  lemma StructureOf(p: Script) returns (c: Code)
    requires WellFormed(p)
    ensures Proper(c) && Tokens(p, 0) == Some(Flatten(c))
  {
    hide Tokens;
    var ts := Tokens(p, 0).value;
    ParseWalk(ts, 0);
    c := ParseCode(ts).value.0;
    assert ParseCode(ts).value.1 == [];
    assert Flatten(c) + [] == Flatten(c);
  }

  // ----- Running -----

  predicate IsTruthy(v: Script) {
    exists i :: 0 <= i < |v| && v[i] != 0
  }

  predicate AllTrue(conds: seq<bool>) {
    forall i :: 0 <= i < |conds| ==> conds[i]
  }

  function SmallInt(v: Script): Option<nat> {
    if |v| == 0 then Some(0)
    else if |v| != 1 || v[0] > 16 then None
    else Some(v[0] as nat)
  }

  function Flag(b: bool): Script {
    if b then [1] else []
  }

  /** CHECKMULTISIG: from the top down a key count and keys, a signature count and signatures, and
    one dummy item. */
  function MultiSigResult(h: Hooks, stack: Stack): Result<Stack, ScriptError> {
    if |stack| < 1 then Err(ScriptEval)
    else
      var n := SmallInt(stack[|stack| - 1]);
      if n.None? || |stack| < n.value + 2 then Err(ScriptEval)
      else
        var below := stack[..|stack| - 1 - n.value];
        var keys := stack[|stack| - 1 - n.value..|stack| - 1];
        var m := SmallInt(below[|below| - 1]);
        if m.None? || m.value > n.value || |below| < m.value + 2 then Err(ScriptEval)
        else
          var base := below[..|below| - 1 - m.value];
          var sigs := below[|below| - 1 - m.value..|below| - 1];
          var pass := h.checkMultiSig.Some? && h.checkMultiSig.value(sigs, keys);
          Ok(base[..|base| - 1] + [Flag(pass)])
  }

  function OpResult(h: Hooks, code: byte, stack: Stack): Result<Stack, ScriptError> {
    var n := |stack|;
    if code == OP_DUP then if n < 1 then Err(ScriptEval) else Ok(stack + [stack[n - 1]])
    else if code == OP_HASH160 then if n < 1 then Err(ScriptEval) else Ok(stack[n - 1 := h.hash160(stack[n - 1])])
    else if code == OP_EQUAL then
      if n < 2 then Err(ScriptEval) else Ok(stack[..n - 2] + [Flag(stack[n - 2] == stack[n - 1])])
    else if code == OP_EQUALVERIFY then
      if n < 2 || stack[n - 2] != stack[n - 1] then Err(ScriptEval) else Ok(stack[..n - 2])
    else if code == OP_CHECKSIG then
      if n < 2 then Err(ScriptEval)
      else Ok(stack[..n - 2] + [Flag(h.checkSig.Some? && h.checkSig.value(stack[n - 2], stack[n - 1]))])
    else if code == OP_CHECKMULTISIG then MultiSigResult(h, stack)
    else Err(UnsupportedScript)
  }

  function StepResult(h: Hooks, t: Token, stack: Stack): Result<Stack, ScriptError>
    requires Plain(t)
  {
    match t
    case Push(data) => Ok(stack + [data])
    case Op(code) => OpResult(h, code, stack)
  }

  /** What a structured program means. */
  function Run(h: Hooks, c: Code, stack: Stack): Result<Stack, ScriptError>
    requires Proper(c)
  {
    match c
    case Done => Ok(stack)
    case Then(step, rest) =>
      var r := StepResult(h, step, stack);
      if r.Err? then r else Run(h, rest, r.value)
    case Cond(negate, arms, rest) =>
      if |stack| < 1 then Err(ScriptEval)
      else
        var r := RunArms(h, arms, IsTruthy(stack[|stack| - 1]) != negate, stack[..|stack| - 1]);
        if r.Err? then r else Run(h, rest, r.value)
  }

  /** Each ELSE switches between running and skipping. */
  function RunArms(h: Hooks, a: Arms, taken: bool, stack: Stack): Result<Stack, ScriptError>
    requires ProperArms(a)
  {
    match a
    case Last(body) => if taken then Run(h, body, stack) else Ok(stack)
    case More(body, others) =>
      var r := if taken then Run(h, body, stack) else Ok(stack);
      if r.Err? then r else RunArms(h, others, !taken, r.value)
  }

  /** The flat machine: a stack and a stack of conditions. */
  function Machine(h: Hooks, ts: seq<Token>, stack: Stack, conds: seq<bool>): Result<(Stack, seq<bool>), ScriptError> {
    if |ts| == 0 then Ok((stack, conds))
    else
      var next := MachineStep(h, ts[0], stack, conds);
      if next.Err? then Err(next.error) else Machine(h, ts[1..], next.value.0, next.value.1)
  }

  function MachineStep(h: Hooks, t: Token, stack: Stack, conds: seq<bool>): Result<(Stack, seq<bool>), ScriptError> {
    var n := |conds|;
    match t
    case If(negate) =>
      if !AllTrue(conds) then Ok((stack, conds + [false]))
      else if |stack| < 1 then Err(ScriptEval)
      else Ok((stack[..|stack| - 1], conds + [IsTruthy(stack[|stack| - 1]) != negate]))
    case Else =>
      if n < 1 then Err(MalformedScript)
      else if AllTrue(conds[..n - 1]) then Ok((stack, conds[..n - 1] + [!conds[n - 1]]))
      else Ok((stack, conds))
    case EndIf => if n < 1 then Err(MalformedScript) else Ok((stack, conds[..n - 1]))
    case _ =>
      if !AllTrue(conds) then Ok((stack, conds))
      else
        var r := StepResult(h, t, stack);
        if r.Err? then Err(r.error) else Ok((r.value, conds))
  }

  lemma MachineHead(h: Hooks, t: Token, ts: seq<Token>, stack: Stack, conds: seq<bool>)
    ensures var next := MachineStep(h, t, stack, conds);
      Machine(h, [t] + ts, stack, conds) == if next.Err? then Err(next.error) else Machine(h, ts, next.value.0, next.value.1)
  {
    HeadTail(t, ts);
    hide MachineStep;
  }

  /** A condition on top of the stack, and what ELSE and ENDIF do to it. */
  lemma TopCond(h: Hooks, stack: Stack, conds: seq<bool>, taken: bool)
    ensures AllTrue(conds + [taken]) <==> AllTrue(conds) && taken
    ensures MachineStep(h, EndIf, stack, conds + [taken]) == Ok((stack, conds))
    ensures MachineStep(h, Else, stack, conds + [taken]) == Ok((stack, conds + [if AllTrue(conds) then !taken else taken]))
  {
    var all := conds + [taken];
    assert all[..|all| - 1] == conds && all[|all| - 1] == taken;
    assert AllTrue(all) ==> forall i :: 0 <= i < |conds| ==> all[i] == conds[i];
  }

  ghost function AfterCode(h: Hooks, r: Result<Stack, ScriptError>, rest: seq<Token>, conds: seq<bool>): Result<(Stack, seq<bool>), ScriptError> {
    if r.Err? then Err(r.error) else Machine(h, rest, r.value, conds)
  }

  /** The flat machine runs a flattened block as the block means, and skips it when inactive. */
  lemma {:induction false} MachineRuns(h: Hooks, c: Code, rest: seq<Token>, stack: Stack, conds: seq<bool>)
    requires Proper(c)
    ensures Machine(h, Flatten(c) + rest, stack, conds)
         == if AllTrue(conds) then AfterCode(h, Run(h, c, stack), rest, conds) else Machine(h, rest, stack, conds)
    decreases c
  {
    hide Machine, Flatten, FlattenArms, IsTruthy, StepResult, AllTrue;
    match c
    case Done =>
      FlatDone(rest);
    case Then(step, more) =>
      FlatThen(step, more, rest);
      MachineHead(h, step, Flatten(more) + rest, stack, conds);
      var r := StepResult(h, step, stack);
      MachineRuns(h, more, rest, if AllTrue(conds) && r.Ok? then r.value else stack, conds);
    case Cond(negate, arms, more) =>
      var tail := Flatten(more) + rest;
      FlatCond(negate, arms, more, rest);
      MachineHead(h, If(negate), FlattenArms(arms) + [EndIf] + tail, stack, conds);
      if !AllTrue(conds) {
        MachineArms(h, arms, tail, stack, conds, false);
        MachineRuns(h, more, rest, stack, conds);
      } else if |stack| >= 1 {
        var taken, below := IsTruthy(stack[|stack| - 1]) != negate, stack[..|stack| - 1];
        MachineArms(h, arms, tail, below, conds, taken);
        var r := RunArms(h, arms, taken, below);
        MachineRuns(h, more, rest, if r.Ok? then r.value else stack, conds);
      }
  }

  lemma {:induction false} MachineArms(h: Hooks, a: Arms, rest: seq<Token>, stack: Stack, conds: seq<bool>, taken: bool)
    requires ProperArms(a) && (AllTrue(conds) || !taken)
    ensures Machine(h, FlattenArms(a) + [EndIf] + rest, stack, conds + [taken])
         == if AllTrue(conds) then AfterCode(h, RunArms(h, a, taken, stack), rest, conds) else Machine(h, rest, stack, conds)
    decreases a
  {
    hide Machine, Flatten, FlattenArms, AllTrue, MachineStep, Run;
    TopCond(h, stack, conds, taken);
    match a
    case Last(body) =>
      FlatLast(body, rest);
      MachineRuns(h, body, [EndIf] + rest, stack, conds + [taken]);
      var s := if taken && Run(h, body, stack).Ok? then Run(h, body, stack).value else stack;
      TopCond(h, s, conds, taken);
      MachineHead(h, EndIf, rest, s, conds + [taken]);
    case More(body, others) =>
      var tail := FlattenArms(others) + [EndIf] + rest;
      FlatMore(body, others, rest);
      MachineRuns(h, body, [Else] + tail, stack, conds + [taken]);
      var s := if taken && Run(h, body, stack).Ok? then Run(h, body, stack).value else stack;
      TopCond(h, s, conds, taken);
      MachineHead(h, Else, tail, s, conds + [taken]);
      MachineArms(h, others, rest, s, conds, if AllTrue(conds) then !taken else taken);
  }

  lemma {:induction false} RunNeverMalformed(h: Hooks, c: Code, stack: Stack)
    requires Proper(c)
    ensures Run(h, c, stack) != Err(MalformedScript)
    decreases c
  {
    hide IsTruthy;
    match c
    case Done =>
    case Then(step, rest) =>
      hide RunArms;
      var r := StepResult(h, step, stack);
      if r.Ok? {
        RunNeverMalformed(h, rest, r.value);
      }
    case Cond(negate, arms, rest) =>
      hide StepResult;
      if |stack| >= 1 {
        var taken := IsTruthy(stack[|stack| - 1]) != negate;
        ArmsNeverMalformed(h, arms, taken, stack[..|stack| - 1]);
        var r := RunArms(h, arms, taken, stack[..|stack| - 1]);
        if r.Ok? {
          RunNeverMalformed(h, rest, r.value);
        }
      }
  }

  lemma {:induction false} ArmsNeverMalformed(h: Hooks, a: Arms, taken: bool, stack: Stack)
    requires ProperArms(a)
    ensures RunArms(h, a, taken, stack) != Err(MalformedScript)
    decreases a
  {
    hide StepResult, Run;
    match a
    case Last(body) =>
      RunNeverMalformed(h, body, stack);
    case More(body, others) =>
      RunNeverMalformed(h, body, stack);
      var r := if taken then Run(h, body, stack) else Ok(stack);
      if r.Ok? {
        ArmsNeverMalformed(h, others, !taken, r.value);
      }
  }

  /** After validation: the flat machine computes the structure's meaning, never reports a
    malformed script, and ends with no condition open. */
  lemma FlatIsStructured(h: Hooks, p: Script, c: Code, stack: Stack)
    requires Proper(c) && Tokens(p, 0) == Some(Flatten(c))
    ensures var r := Run(h, c, stack);
      && Machine(h, Tokens(p, 0).value, stack, []) == (if r.Err? then Err(r.error) else Ok((r.value, [])))
      && r != Err(MalformedScript)
  {
    MachineRuns(h, c, [], stack, []);
    RunNeverMalformed(h, c, stack);
    assert Flatten(c) + [] == Flatten(c);
    hide Tokens, Flatten, Run;
  }

  // ----- The interpreter -----

  /** The last n items, filled in from the top of the stack down. */
  method PopItems(stack: Stack, n: nat) returns (items: Stack, rest: Stack)
    requires n <= |stack|
    ensures items == stack[|stack| - n..] && rest == stack[..|stack| - n]
  {
    var a := new Script[n];
    rest := stack;
    var i := n - 1;
    while i >= 0
      invariant -1 <= i < n && rest == stack[..|stack| - n + i + 1]
      invariant forall k :: i < k < n ==> a[k] == stack[|stack| - n + k]
    {
      a[i] := rest[|rest| - 1];
      rest := rest[..|rest| - 1];
      i := i - 1;
    }
    items := a[..];
  }

  method CheckMultiSig(h: Hooks, stack0: Stack) returns (r: Result<Stack, ScriptError>)
    ensures r == MultiSigResult(h, stack0)
  {
    var stack := stack0;
    if |stack| < 1 {
      return Err(ScriptEval);
    }
    var n := SmallInt(stack[|stack| - 1]);
    if n.None? {
      return Err(ScriptEval);
    }
    stack := stack[..|stack| - 1];
    if |stack| < n.value + 1 {
      return Err(ScriptEval);
    }
    var pubKeys, sigs;
    pubKeys, stack := PopItems(stack, n.value);
    assert stack == stack0[..|stack0| - 1 - n.value] && pubKeys == stack0[|stack0| - 1 - n.value..|stack0| - 1];
    ghost var below := stack;
    var m := SmallInt(stack[|stack| - 1]);
    if m.None? {
      return Err(ScriptEval);
    }
    stack := stack[..|stack| - 1];
    if m.value > n.value || |stack| < m.value + 1 {
      return Err(ScriptEval);
    }
    sigs, stack := PopItems(stack, m.value);
    assert stack == below[..|below| - 1 - m.value] && sigs == below[|below| - 1 - m.value..|below| - 1];
    stack := stack[..|stack| - 1];
    var pass := h.checkMultiSig.Some? && h.checkMultiSig.value(sigs, pubKeys);
    if pass {
      stack := stack + [[1]];
    } else {
      stack := stack + [[]];
    }
    r := Ok(stack);
  }

  method ExecuteOp(h: Hooks, op: byte, stack0: Stack) returns (r: Result<Stack, ScriptError>)
    ensures r == OpResult(h, op, stack0)
  {
    hide MultiSigResult;
    var stack := stack0;
    if op == OP_DUP {
      if |stack| < 1 {
        return Err(ScriptEval);
      }
      stack := stack + [stack[|stack| - 1]];
    } else if op == OP_HASH160 {
      if |stack| < 1 {
        return Err(ScriptEval);
      }
      var top := stack[|stack| - 1];
      stack := stack[|stack| - 1 := h.hash160(top)];
    } else if op == OP_EQUAL {
      if |stack| < 2 {
        return Err(ScriptEval);
      }
      var a, b := stack[|stack| - 2], stack[|stack| - 1];
      stack := stack[..|stack| - 2];
      stack := stack + [if a == b then [1] else []];
    } else if op == OP_EQUALVERIFY {
      if |stack| < 2 {
        return Err(ScriptEval);
      }
      var a, b := stack[|stack| - 2], stack[|stack| - 1];
      stack := stack[..|stack| - 2];
      if a != b {
        return Err(ScriptEval);
      }
    } else if op == OP_CHECKSIG {
      if |stack| < 2 {
        return Err(ScriptEval);
      }
      var pubKey, sig := stack[|stack| - 1], stack[|stack| - 2];
      stack := stack[..|stack| - 2];
      var ok := h.checkSig.Some? && h.checkSig.value(sig, pubKey);
      stack := stack + [if ok then [1] else []];
    } else if op == OP_CHECKMULTISIG {
      r := CheckMultiSig(h, stack);
      return;
    } else {
      return Err(UnsupportedScript);
    }
    r := Ok(stack);
  }

  method Active(conds: seq<bool>) returns (active: bool)
    ensures active <==> AllTrue(conds)
  {
    active := true;
    for i := 0 to |conds|
      invariant active && AllTrue(conds[..i])
    {
      if !conds[i] {
        return false;
      }
    }
    assert conds[..|conds|] == conds;
  }

  /** Reads one token and says where the next one starts. */
  method Fetch(program: Script, start: nat) returns (r: Option<(Token, nat)>)
    requires start < |program|
    ensures r == Lex(program, start)
  {
    var pc := start;
    var op := program[pc];
    pc := pc + 1;
    if op == 0 {
      return Some((Push([]), pc));
    } else if OP_1 <= op <= OP_16 {
      return Some((Push([op - OP_1 + 1]), pc));
    } else if 1 <= op <= 75 {
      if pc + op as int > |program| {
        return None;
      }
      return Some((Push(program[pc..pc + op as int]), pc + op as int));
    } else if op == OP_PUSHDATA1 {
      if pc + 1 > |program| {
        return None;
      }
      var size := program[pc] as int;
      pc := pc + 1;
      if pc + size > |program| {
        return None;
      }
      return Some((Push(program[pc..pc + size]), pc + size));
    } else if op == OP_PUSHDATA2 {
      if pc + 2 > |program| {
        return None;
      }
      var size := program[pc] as int + 256 * program[pc + 1] as int;
      pc := pc + 2;
      if pc + size > |program| {
        return None;
      }
      return Some((Push(program[pc..pc + size]), pc + size));
    } else if op == OP_IF || op == OP_NOTIF {
      return Some((If(op == OP_NOTIF), pc));
    } else if op == OP_ELSE {
      return Some((Else, pc));
    } else if op == OP_ENDIF {
      return Some((EndIf, pc));
    }
    r := Some((Op(op), pc));
  }

  /** One turn of the interpreter's loop. */
  method Dispatch(h: Hooks, t: Token, stack0: Stack, conds0: seq<bool>) returns (r: Result<(Stack, seq<bool>), ScriptError>)
    ensures r == MachineStep(h, t, stack0, conds0)
  {
    hide OpResult, AllTrue, IsTruthy;
    var stack, conds := stack0, conds0;
    var active := Active(conds);
    match t {
      case Push(data) =>
        if active {
          stack := stack + [data];
        }
      case If(negate) =>
        var cond := false;
        if active {
          if |stack| < 1 {
            return Err(ScriptEval);
          }
          var top := stack[|stack| - 1];
          stack := stack[..|stack| - 1];
          cond := IsTruthy(top);
          if negate {
            cond := !cond;
          }
        }
        conds := conds + [cond];
      case Else =>
        if |conds| < 1 {
          return Err(MalformedScript);
        }
        var parentActive := Active(conds[..|conds| - 1]);
        if parentActive {
          conds := conds[|conds| - 1 := !conds[|conds| - 1]];
          assert conds == conds0[..|conds0| - 1] + [!conds0[|conds0| - 1]];
        }
      case EndIf =>
        if |conds| < 1 {
          return Err(MalformedScript);
        }
        conds := conds[..|conds| - 1];
      case Op(code) =>
        if active {
          var done := ExecuteOp(h, code, stack);
          if done.Err? {
            return Err(done.error);
          }
          stack := done.value;
        }
    }
    r := Ok((stack, conds));
  }

  /** Evaluates a program: rejected as malformed exactly when it has no structure, and otherwise
    the result or the error is what its one structure means. */
  method EvalPushScriptWithHooks(h: Hooks, program: Script, initialStack: Stack) returns (r: Result<Stack, ScriptError>)
    ensures r == Err(MalformedScript) <==> !WellFormed(program)
    ensures forall c :: Proper(c) && Tokens(program, 0) == Some(Flatten(c)) ==> r == Run(h, c, initialStack)
  {
    hide *;
    WellFormedIffStructured(program);
    var ok := ValidateScriptStructure(program);
    if !ok {
      return Err(MalformedScript);
    }
    ghost var c := StructureOf(program);
    FlatIsStructured(h, program, c, initialStack);
    StartsAs(program);
    var stack, conds, pc := initialStack, [], 0;
    ghost var whole := Machine(h, Tokens(program, 0).value, initialStack, []);
    while pc < |program|
      invariant pc <= |program| && Tokens(program, pc).Some?
      invariant Machine(h, Tokens(program, pc).value, stack, conds) == whole
      decreases |program| - pc
    {
      MachineNext(h, program, pc, stack, conds);
      // Validation has seen this token, so its data is all there.
      var t := Fetch(program, pc);
      var next := Dispatch(h, t.value.0, stack, conds);
      if next.Err? {
        return Err(next.error);
      }
      stack, conds := next.value.0, next.value.1;
      pc := t.value.1;
    }
    MachineEnd(h, program, stack, conds);
    r := Ok(stack);
  }

  lemma StartsAs(p: Script)
    requires WellFormed(p)
    ensures Tokens(p, 0).Some?
  {
  }

  lemma MachineNext(h: Hooks, p: Script, pc: nat, stack: Stack, conds: seq<bool>)
    requires pc < |p| && Tokens(p, pc).Some?
    ensures var t := Lex(p, pc);
      && t.Some? && pc < t.value.1 <= |p| && Tokens(p, t.value.1).Some?
      && var next := MachineStep(h, t.value.0, stack, conds);
      Machine(h, Tokens(p, pc).value, stack, conds)
        == if next.Err? then Err(next.error) else Machine(h, Tokens(p, t.value.1).value, next.value.0, next.value.1)
  {
    var t := Lex(p, pc);
    MachineHead(h, t.value.0, Tokens(p, t.value.1).value, stack, conds);
    hide Lex, Machine, MachineStep;
  }

  lemma MachineEnd(h: Hooks, p: Script, stack: Stack, conds: seq<bool>)
    ensures Tokens(p, |p|) == Some([]) && Machine(h, [], stack, conds) == Ok((stack, conds))
  {
  }
}
