/** Base58 text, with and without its checksum. */
module Base58 {
  import opened Wire
  import opened Consensus

  const NUMERALS := "123456789"
  const CAPITALS := "ABCDEFGHJKLMNPQRSTUVWXYZ"
  const SMALLS := "abcdefghijkmnopqrstuvwxyz"
  const ALPHABET := NUMERALS + CAPITALS + SMALLS

  datatype DecodeError = BadChar | BadChecksum

  // ----- Digits, highest first -----

  function Value(base: nat, ds: seq<nat>): nat {
    if |ds| == 0 then 0 else Value(base, ds[..|ds| - 1]) * base + ds[|ds| - 1]
  }

  /** The shortest digits of n: none for zero, and never a leading zero. */
  function Digits(base: nat, n: nat): seq<nat>
    requires base > 1
  {
    if n == 0 then []
    else
      Shrinks(n, base);
      Digits(base, n / base) + [n % base]
  }

  lemma Shrinks(n: nat, base: nat)
    requires n > 0 && base > 1
    ensures 0 <= n / base < n && n == n / base * base + n % base
  {
    assert n < n * base;
    DivBounds(n, base, 0, n);
  }

  predicate InBase(base: nat, ds: seq<nat>) {
    forall i :: 0 <= i < |ds| ==> ds[i] < base
  }

  function Zeros(n: nat): seq<nat> {
    seq(n, i => 0)
  }

  function LeadingZeros(ds: seq<nat>): (n: nat)
    ensures n <= |ds|
  {
    if |ds| == 0 || ds[0] != 0 then 0 else 1 + LeadingZeros(ds[1..])
  }

  /** The same number in another base, with a leading zero for each leading zero. */
  function Recode(from: nat, to: nat, ds: seq<nat>): seq<nat>
    requires to > 1
  {
    Zeros(LeadingZeros(ds)) + Digits(to, Value(from, ds))
  }

  lemma ValueSnoc(base: nat, ds: seq<nat>, d: nat)
    ensures Value(base, ds + [d]) == Value(base, ds) * base + d
  {
    assert (ds + [d])[..|ds|] == ds;
  }

  lemma {:induction false} DigitsFacts(base: nat, n: nat)
    requires base > 1
    ensures Value(base, Digits(base, n)) == n && InBase(base, Digits(base, n))
    ensures |Digits(base, n)| > 0 <==> n > 0
    ensures n > 0 ==> Digits(base, n)[0] > 0
  {
    if n > 0 {
      Shrinks(n, base);
      DigitsFacts(base, n / base);
      ValueSnoc(base, Digits(base, n / base), n % base);
      hide Value;
    }
  }

  /** Digits without a leading zero are the shortest digits of their value. */
  lemma {:induction false} DigitsOfValue(base: nat, ds: seq<nat>)
    requires base > 1 && InBase(base, ds) && (|ds| > 0 ==> ds[0] > 0)
    ensures Digits(base, Value(base, ds)) == ds
    ensures Value(base, ds) > 0 <==> |ds| > 0
  {
    if |ds| > 0 {
      var front, last := ds[..|ds| - 1], ds[|ds| - 1];
      DigitsOfValue(base, front);
      assert ds == front + [last];
      ValueSnoc(base, front, last);
      Divide(base, Value(base, front), last);
      hide Value;
    }
  }

  lemma Divide(base: nat, q: nat, r: nat)
    requires r < base
    ensures (q * base + r) / base == q && (q * base + r) % base == r
    ensures q > 0 ==> q * base + r > 0
  {
    var n := q * base + r;
    assert n < (q + 1) * base;
    DivBounds(n, base, q, q + 1);
    assert n == n / base * base + n % base;
  }

  lemma {:induction false} Split(ds: seq<nat>)
    ensures var k := LeadingZeros(ds);
      && ds == Zeros(k) + ds[k..]
      && (k < |ds| ==> ds[k] != 0)
  {
    var k := LeadingZeros(ds);
    if k > 0 {
      Split(ds[1..]);
      assert ds[1..][k - 1..] == ds[k..];
      assert ds == [0] + ds[1..] && Zeros(k) == [0] + Zeros(k - 1);
    } else {
      assert ds[0..] == ds && Zeros(0) == [];
    }
  }

  lemma {:induction false} ZerosAreWorthless(base: nat, k: nat, ds: seq<nat>)
    ensures Value(base, Zeros(k) + ds) == Value(base, ds)
    decreases k + |ds|
  {
    var all := Zeros(k) + ds;
    if |ds| > 0 {
      ZerosAreWorthless(base, k, ds[..|ds| - 1]);
      assert all[..|all| - 1] == Zeros(k) + ds[..|ds| - 1];
    } else if k > 0 {
      ZerosAreWorthless(base, k - 1, ds);
      assert all[..|all| - 1] == Zeros(k - 1) + ds;
    } else {
      assert all == ds;
    }
  }

  lemma {:induction false} CountZeros(k: nat, ds: seq<nat>)
    requires |ds| > 0 ==> ds[0] > 0
    ensures LeadingZeros(Zeros(k) + ds) == k
  {
    var all := Zeros(k) + ds;
    if k > 0 {
      CountZeros(k - 1, ds);
      assert all[1..] == Zeros(k - 1) + ds;
    } else {
      assert all == ds;
    }
  }

  lemma RecodeInBase(from: nat, to: nat, ds: seq<nat>)
    requires to > 1
    ensures InBase(to, Recode(from, to, ds))
  {
    DigitsFacts(to, Value(from, ds));
    hide Digits, Value;
  }

  /** Recoding there and back is the identity on all digit sequences, zeros included. */
  lemma RecodeBack(from: nat, to: nat, ds: seq<nat>)
    requires from > 1 && to > 1 && InBase(from, ds)
    ensures Recode(to, from, Recode(from, to, ds)) == ds
  {
    var k, v := LeadingZeros(ds), Value(from, ds);
    Split(ds);
    DigitsFacts(to, v);
    hide Digits, Value, LeadingZeros;
    CountZeros(k, Digits(to, v));
    ZerosAreWorthless(to, k, Digits(to, v));
    ZerosAreWorthless(from, k, ds[k..]);
    DigitsOfValue(from, ds[k..]);
  }

  // ----- Characters and bytes -----

  predicate Ascending(s: string) {
    forall i :: 0 <= i < |s| - 1 ==> s[i] < s[i + 1]
  }

  lemma NumeralsAscend()
    ensures Ascending(NUMERALS) && |NUMERALS| == 9 && NUMERALS[8] == '9'
  {
  }

  lemma CapitalsAscend()
    ensures Ascending(CAPITALS) && |CAPITALS| == 24 && CAPITALS[0] == 'A' && CAPITALS[23] == 'Z'
  {
  }

  lemma SmallsAscend()
    ensures Ascending(SMALLS) && |SMALLS| == 25 && SMALLS[0] == 'a'
  {
  }

  lemma AlphabetAscends()
    ensures Ascending(ALPHABET) && |ALPHABET| == 58
  {
    NumeralsAscend();
    CapitalsAscend();
    SmallsAscend();
    hide NUMERALS, CAPITALS, SMALLS;
  }

  /** In an ascending string no character occurs twice. */
  lemma {:induction false} AscendingDiffer(s: string, i: nat, j: nat)
    requires Ascending(s) && i < j < |s|
    ensures s[i] < s[j]
    decreases j
  {
    assert s[j - 1] < s[j];
    if i < j - 1 {
      AscendingDiffer(s, i, j - 1);
    }
  }

  /** The reverse table, filled in alphabet order. */
  function Index(n: nat): map<char, nat>
    requires n <= |ALPHABET|
  {
    if n == 0 then map[] else Index(n - 1)[ALPHABET[n - 1] := n - 1]
  }

  lemma {:induction false} IndexFacts(n: nat)
    requires n <= |ALPHABET|
    ensures forall c :: c in Index(n) ==> Index(n)[c] < n && ALPHABET[Index(n)[c]] == c
    ensures forall i :: 0 <= i < n ==> ALPHABET[i] in Index(n) && Index(n)[ALPHABET[i]] == i
  {
    hide ALPHABET, Ascending;
    AlphabetAscends();
    if n > 0 {
      IndexFacts(n - 1);
      IndexStep(n - 1);
      hide Index;
      var m, c := Index(n - 1), ALPHABET[n - 1];
      forall i | 0 <= i < n - 1
        ensures ALPHABET[i] != c
      {
        AscendingDiffer(ALPHABET, i, n - 1);
      }
      assert Index(n) == m[c := n - 1];
    }
  }

  method AlphabetIndex() returns (m: map<char, nat>)
    ensures m == Index(|ALPHABET|)
  {
    m := map[];
    hide *;
    IndexNone();
    for i := 0 to |ALPHABET|
      invariant m == Index(i)
    {
      IndexStep(i);
      m := m[ALPHABET[i] := i];
    }
  }

  lemma IndexNone()
    ensures Index(0) == map[]
  {
  }

  lemma IndexStep(i: nat)
    requires i < |ALPHABET|
    ensures Index(i + 1) == Index(i)[ALPHABET[i] := i]
  {
  }

  function Text(ds: seq<nat>): string
    requires InBase(|ALPHABET|, ds)
  {
    seq(|ds|, i requires 0 <= i < |ds| => ALPHABET[ds[i]])
  }

  predicate IsText(s: string) {
    forall i :: 0 <= i < |s| ==> s[i] in Index(|ALPHABET|)
  }

  function TextDigits(s: string): seq<nat>
    requires IsText(s)
  {
    seq(|s|, i requires 0 <= i < |s| => Index(|ALPHABET|)[s[i]])
  }

  lemma TextBack(ds: seq<nat>)
    requires InBase(|ALPHABET|, ds)
    ensures IsText(Text(ds)) && TextDigits(Text(ds)) == ds
  {
    IndexFacts(|ALPHABET|);
    hide Index;
  }

  lemma DigitsBack(s: string)
    requires IsText(s)
    ensures InBase(|ALPHABET|, TextDigits(s)) && Text(TextDigits(s)) == s
  {
    IndexFacts(|ALPHABET|);
    hide Index;
  }

  function ByteDigits(data: seq<byte>): seq<nat> {
    seq(|data|, i requires 0 <= i < |data| => data[i] as nat)
  }

  function BytesOf(ds: seq<nat>): seq<byte>
    requires InBase(256, ds)
  {
    seq(|ds|, i requires 0 <= i < |ds| => ds[i] as byte)
  }

  lemma BytesBack(data: seq<byte>)
    ensures InBase(256, ByteDigits(data)) && BytesOf(ByteDigits(data)) == data
  {
  }

  lemma ByteDigitsBack(ds: seq<nat>)
    requires InBase(256, ds)
    ensures ByteDigits(BytesOf(ds)) == ds
  {
  }

  // ----- Encoding and decoding -----

  lemma AlphabetSize()
    ensures |ALPHABET| == 58
  {
    AlphabetAscends();
  }

  function Encoded(data: seq<byte>): string {
    AlphabetSize();
    RecodeInBase(256, 58, ByteDigits(data));
    Text(Recode(256, 58, ByteDigits(data)))
  }

  function Decoded(s: string): Option<seq<byte>> {
    if !IsText(s) then None
    else
      RecodeInBase(58, 256, TextDigits(s));
      Some(BytesOf(Recode(58, 256, TextDigits(s))))
  }

  /** Every byte string survives encoding, leading zeros and all. */
  lemma DecodeEncode(data: seq<byte>)
    ensures Decoded(Encoded(data)) == Some(data)
  {
    AlphabetSize();
    hide Recode, Index, Text, TextDigits, ByteDigits, BytesOf;
    BytesBack(data);
    RecodeInBase(256, 58, ByteDigits(data));
    RecodeBack(256, 58, ByteDigits(data));
    TextBack(Recode(256, 58, ByteDigits(data)));
  }

  /** Every alphabet string is the encoding of what it decodes to. */
  lemma EncodeDecode(s: string)
    ensures Decoded(s).Some? <==> IsText(s)
    ensures Decoded(s).Some? ==> Encoded(Decoded(s).value) == s
  {
    AlphabetSize();
    hide Recode, Index, Text, TextDigits, ByteDigits, BytesOf, IsText;
    if IsText(s) {
      DigitsBack(s);
      RecodeInBase(58, 256, TextDigits(s));
      RecodeBack(58, 256, TextDigits(s));
      ByteDigitsBack(Recode(58, 256, TextDigits(s)));
    }
  }

  /** The text spells the same number, highest digit first, and has a leading `1` for each leading
    zero byte and no other. */
  lemma SameNumber(data: seq<byte>)
    ensures IsText(Encoded(data))
    ensures Value(58, TextDigits(Encoded(data))) == Value(256, ByteDigits(data))
    ensures LeadingZeros(TextDigits(Encoded(data))) == LeadingZeros(ByteDigits(data))
  {
    AlphabetSize();
    hide Index, Text, TextDigits, ByteDigits, Value, Digits, LeadingZeros;
    var ds := ByteDigits(data);
    var v, k := Value(256, ds), LeadingZeros(ds);
    RecodeInBase(256, 58, ds);
    TextBack(Recode(256, 58, ds));
    DigitsFacts(58, v);
    ZerosAreWorthless(58, k, Digits(58, v));
    CountZeros(k, Digits(58, v));
  }

  /** Some texts. */
  lemma KnownTexts()
    ensures Encoded([0]) == "1" && Encoded([0x61]) == "2g" && Encoded([0, 0xff]) == "15Q"
  {
    AlphabetSize();
    Spell([0], [0]);
    Spell([0x61], [1, 39]);
    Spell([0, 0xff], [0, 4, 23]);
    assert ALPHABET[0] == '1' && ALPHABET[1] == '2' && ALPHABET[39] == 'g' && ALPHABET[4] == '5' && ALPHABET[23] == 'Q';
  }

  lemma Spell(data: seq<byte>, ds: seq<nat>)
    requires |ALPHABET| == 58 && InBase(58, ds)
    requires Value(58, ds) == Value(256, ByteDigits(data)) && LeadingZeros(ds) == LeadingZeros(ByteDigits(data))
    ensures Encoded(data) == Text(ds)
  {
    var k := LeadingZeros(ds);
    Split(ds);
    ZerosAreWorthless(58, k, ds[k..]);
    DigitsOfValue(58, ds[k..]);
    hide Text, Digits, Value;
  }

  function Backwards<T>(xs: seq<T>): seq<T> {
    seq(|xs|, i requires 0 <= i < |xs| => xs[|xs| - 1 - i])
  }

  lemma BackwardsSnoc<T>(xs: seq<T>, x: T)
    ensures Backwards(xs + [x]) == [x] + Backwards(xs)
  {
  }

  method SwapEnds(a: array<char>)
    modifies a
    ensures a[..] == Backwards(old(a[..]))
  {
    var i, j := 0, a.Length - 1;
    while i < j
      invariant 0 <= i <= a.Length && j == a.Length - 1 - i && i <= j + 1
      invariant forall k :: i <= k <= j ==> a[k] == old(a[k])
      invariant forall k :: 0 <= k < i || j < k < a.Length ==> a[k] == old(a[a.Length - 1 - k])
    {
      a[i], a[j] := a[j], a[i];
      i, j := i + 1, j - 1;
    }
  }

  /** Lowest digit first while dividing, then the zeros, then the whole buffer turned around. */
  method EncodeBase58(data: seq<byte>) returns (s: string)
    ensures s == Encoded(data)
  {
    AlphabetSize();
    ghost var ds := ByteDigits(data);
    var x := Value(256, ByteDigits(data));
    ghost var v := x;
    var out: string := [];
    hide *;
    DigitsStart(v);
    while x > 0
      invariant InBase(58, Digits(58, v)) && InBase(58, Digits(58, x)) && |ALPHABET| == 58
      invariant Text(Digits(58, v)) == Text(Digits(58, x)) + Backwards(out)
      decreases x
    {
      DigitStep(x, out);
      var mod := x % 58;
      x := x / 58;
      out := out + [ALPHABET[mod]];
    }
    DigitsEnd(v, out);
    var i := 0;
    ghost var digits := out;
    NoZeros(data, digits);
    while i < |data| && data[i] == 0
      invariant i <= LeadingZeros(ds) && ZeroTail(ds, digits, i, out)
      invariant Progress(data, ds, i)
      decreases |data| - i
    {
      ZeroStep(data, ds, digits, i, out);
      out := out + [ALPHABET[0]];
      i := i + 1;
    }
    ZerosDone(data, ds, digits, i, out);
    var buffer := new char[|out|](k requires 0 <= k < |out| => out[k]);
    assert buffer[..] == out;
    SwapEnds(buffer);
    s := buffer[..];
  }

  lemma DigitsStart(v: nat)
    ensures |ALPHABET| == 58 && InBase(58, Digits(58, v))
    ensures Text(Digits(58, v)) == Text(Digits(58, v)) + Backwards([])
  {
    AlphabetSize();
    DigitsFacts(58, v);
  }

  lemma DigitStep(x: nat, out: string)
    requires x > 0 && |ALPHABET| == 58 && InBase(58, Digits(58, x))
    ensures x / 58 < x && x % 58 < 58 && InBase(58, Digits(58, x / 58))
    ensures Text(Digits(58, x)) + Backwards(out) == Text(Digits(58, x / 58)) + Backwards(out + [ALPHABET[x % 58]])
  {
    Shrinks(x, 58);
    DigitsFacts(58, x / 58);
    LastDigit(x);
    hide *;
    var c := ALPHABET[x % 58];
    BackwardsSnoc(out, c);
    TextSnoc(Digits(58, x / 58), x % 58);
  }

  lemma LastDigit(x: nat)
    requires x > 0
    ensures Digits(58, x) == Digits(58, x / 58) + [x % 58]
  {
  }

  lemma TextSnoc(ds: seq<nat>, d: nat)
    requires |ALPHABET| == 58 && InBase(58, ds) && d < 58
    ensures InBase(58, ds + [d]) && Text(ds + [d]) == Text(ds) + [ALPHABET[d]]
  {
    hide ALPHABET;
  }

  lemma DigitsEnd(v: nat, out: string)
    requires |ALPHABET| == 58 && InBase(58, Digits(58, v)) && InBase(58, Digits(58, 0))
    requires Text(Digits(58, v)) == Text(Digits(58, 0)) + Backwards(out)
    ensures Text(Digits(58, v)) == Backwards(out)
  {
  }

  /** The digits, then i zeros. */
  ghost predicate ZeroTail(ds: seq<nat>, digits: string, i: nat, out: string) {
    |ALPHABET| == 58 && out == digits + seq(i, k => ALPHABET[0])
  }

  /** The first i bytes are zero. */
  ghost predicate Progress(data: seq<byte>, ds: seq<nat>, i: nat) {
    && ds == ByteDigits(data) && i <= |data|
    && LeadingZeros(ds) == i + LeadingZeros(ds[i..])
  }

  lemma NoZeros(data: seq<byte>, digits: string)
    ensures var ds := ByteDigits(data);
      ZeroTail(ds, digits, 0, digits) && Progress(data, ds, 0) && 0 <= LeadingZeros(ds)
  {
    AlphabetSize();
    assert ByteDigits(data)[0..] == ByteDigits(data);
  }

  lemma ZeroStep(data: seq<byte>, ds: seq<nat>, digits: string, i: nat, out: string)
    requires ZeroTail(ds, digits, i, out) && Progress(data, ds, i) && i < |data| && data[i] == 0
    ensures ZeroTail(ds, digits, i + 1, out + [ALPHABET[0]]) && Progress(data, ds, i + 1) && i + 1 <= LeadingZeros(ds)
  {
    assert ds[i..][1..] == ds[i + 1..];
    assert ds[i..][0] == 0;
  }

  lemma ZerosDone(data: seq<byte>, ds: seq<nat>, digits: string, i: nat, out: string)
    requires ZeroTail(ds, digits, i, out) && Progress(data, ds, i) && (i < |data| ==> data[i] != 0)
    requires var v := Value(256, ds);
      InBase(58, Digits(58, v)) && |ALPHABET| == 58 && Text(Digits(58, v)) == Backwards(digits)
    ensures Backwards(out) == Encoded(data)
  {
    var v := Value(256, ds);
    assert LeadingZeros(ds) == i && ds == ByteDigits(data) && out == digits + seq(i, k => ALPHABET[0]);
    hide ALPHABET, Value, Digits, LeadingZeros, Progress, ZeroTail;
    RecodeInBase(256, 58, ds);
    ZeroText(i, Digits(58, v));
    ZerosBackwards(digits, i);
    hide Text, Backwards;
  }

  lemma ZeroText(n: nat, ds: seq<nat>)
    requires |ALPHABET| == 58 && InBase(58, ds)
    ensures InBase(58, Zeros(n) + ds) && Text(Zeros(n) + ds) == seq(n, k => ALPHABET[0]) + Text(ds)
  {
    hide ALPHABET;
  }

  lemma ZerosBackwards(digits: string, n: nat)
    requires |ALPHABET| == 58
    ensures Backwards(digits + seq(n, k => ALPHABET[0])) == seq(n, k => ALPHABET[0]) + Backwards(digits)
  {
    hide ALPHABET;
  }

  method DecodeBase58(s: string) returns (r: Result<seq<byte>, DecodeError>)
    ensures r == if Decoded(s).Some? then Ok(Decoded(s).value) else Err(BadChar)
  {
    var index := AlphabetIndex();
    var x: nat := 0;
    hide *;
    DecodeStart(s);
    for i := 0 to |s|
      invariant index == Index(|ALPHABET|)
      invariant Reading(s, i, x)
    {
      ReadStep(s, i, x);
      if s[i] !in index {
        return Err(BadChar);
      }
      x := x * 58 + index[s[i]];
    }
    ReadAll(s, x);
    var out := BytesOf(Digits(256, x));
    var leading := 0;
    LeadingStart(s);
    while leading < |s| && s[leading] == ALPHABET[0]
      invariant Leading(s, leading)
      decreases |s| - leading
    {
      LeadingStep(s, leading);
      leading := leading + 1;
    }
    DecodeEnd(s, x, leading);
    if leading > 0 {
      out := seq(leading, k => 0) + out;
    }
    r := Ok(out);
  }

  /** The first i characters are alphabet characters and their value is x. */
  ghost predicate Reading(s: string, i: nat, x: nat) {
    i <= |s| && IsText(s[..i]) && x == Value(58, TextDigits(s[..i]))
  }

  lemma DecodeStart(s: string)
    ensures Reading(s, 0, 0) && |ALPHABET| == 58
  {
    AlphabetSize();
    hide Index;
  }

  lemma ReadStep(s: string, i: nat, x: nat)
    requires i < |s| && Reading(s, i, x)
    ensures |ALPHABET| == 58
    ensures var index := Index(|ALPHABET|);
      if s[i] in index then Reading(s, i + 1, x * 58 + index[s[i]]) else Decoded(s).None?
  {
    AlphabetSize();
    hide Index, BytesOf, Recode;
    if s[i] in Index(|ALPHABET|) {
      var more := s[..i + 1];
      assert more[..i] == s[..i];
      assert IsText(more);
      var ds := TextDigits(more);
      assert ds[..i] == TextDigits(s[..i]);
    }
  }

  lemma ReadAll(s: string, x: nat)
    requires Reading(s, |s|, x)
    ensures IsText(s) && x == Value(58, TextDigits(s)) && InBase(256, Digits(256, x))
  {
    assert s[..|s|] == s;
    DigitsFacts(256, x);
    hide Index, Value, Digits;
  }

  ghost predicate Leading(s: string, n: nat) {
    IsText(s) && n <= |s| && LeadingZeros(TextDigits(s)) == n + LeadingZeros(TextDigits(s)[n..])
  }

  lemma LeadingStart(s: string)
    requires IsText(s)
    ensures |ALPHABET| == 58 && Leading(s, 0)
  {
    AlphabetSize();
    hide Index;
    assert TextDigits(s)[0..] == TextDigits(s);
  }

  lemma LeadingStep(s: string, n: nat)
    requires Leading(s, n) && n < |s| && |ALPHABET| == 58 && s[n] == ALPHABET[0]
    ensures Leading(s, n + 1)
  {
    IndexFacts(|ALPHABET|);
    hide Index;
    var ds := TextDigits(s);
    assert ds[n] == 0;
    assert ds[n..][1..] == ds[n + 1..];
  }

  lemma DecodeEnd(s: string, x: nat, n: nat)
    requires Leading(s, n) && |ALPHABET| == 58 && (n < |s| ==> s[n] != ALPHABET[0])
    requires IsText(s) && x == Value(58, TextDigits(s)) && InBase(256, Digits(256, x))
    ensures Decoded(s) == Some(seq(n, k => 0) + BytesOf(Digits(256, x)))
    ensures n == 0 ==> Decoded(s) == Some(BytesOf(Digits(256, x)))
  {
    hide ALPHABET;
    var ds := TextDigits(s);
    NoMoreZeros(s, n);
    hide Index, Value, Digits, LeadingZeros, Leading, TextDigits, IsText;
    RecodeInBase(58, 256, ds);
    ZeroBytes(n, Digits(256, x));
    hide BytesOf;
    assert n == 0 ==> Zeros(n) + Digits(256, x) == Digits(256, x);
  }

  lemma NoMoreZeros(s: string, n: nat)
    requires Leading(s, n) && |ALPHABET| == 58 && (n < |s| ==> s[n] != ALPHABET[0])
    ensures IsText(s) && LeadingZeros(TextDigits(s)) == n
  {
    IndexFacts(|ALPHABET|);
    hide Index, ALPHABET;
    var ds := TextDigits(s);
    assert n < |s| ==> ds[n..][0] == ds[n] != 0;
  }

  lemma ZeroBytes(n: nat, ds: seq<nat>)
    requires InBase(256, ds)
    ensures InBase(256, Zeros(n) + ds) && BytesOf(Zeros(n) + ds) == seq(n, k => 0) + BytesOf(ds)
  {
  }

  // ----- With a checksum -----

  /** The checksum is foreign: any function to four bytes. */
  ghost predicate IsChecksum(sum: seq<byte> -> seq<byte>) {
    forall data :: |sum(data)| == 4
  }

  method EncodeBase58Check(sum: seq<byte> -> seq<byte>, version: byte, payload: seq<byte>) returns (s: string)
    ensures s == Encoded([version] + payload + sum([version] + payload))
  {
    var data := [version] + payload;
    data := data + sum(data);
    s := EncodeBase58(data);
  }

  method DecodeBase58Check(sum: seq<byte> -> seq<byte>, s: string) returns (r: Result<(byte, seq<byte>), DecodeError>)
    requires IsChecksum(sum)
    ensures Decoded(s).None? <==> r == Err(BadChar)
    ensures r.Ok? <==> exists version: byte, payload: seq<byte> :: s == Encoded([version] + payload + sum([version] + payload))
    ensures r.Ok? ==> s == Encoded([r.value.0] + r.value.1 + sum([r.value.0] + r.value.1))
  {
    var decoded := DecodeBase58(s);
    if decoded.Err? {
      CheckedDecodes(sum, s);
      return Err(decoded.error);
    }
    var data := decoded.value;
    CheckedParts(sum, s, data);
    if |data| < 5 {
      return Err(BadChecksum);
    }
    var body, got := data[..|data| - 4], data[|data| - 4..];
    if got != sum(body) {
      return Err(BadChecksum);
    }
    assert data == body + got && body == [body[0]] + body[1..];
    EncodeDecode(s);
    r := Ok((body[0], body[1..]));
  }

  lemma CheckedDecodes(sum: seq<byte> -> seq<byte>, s: string)
    ensures Decoded(s).None? ==>
      forall version: byte, payload: seq<byte> :: s != Encoded([version] + payload + sum([version] + payload))
  {
    forall version: byte, payload: seq<byte> | s == Encoded([version] + payload + sum([version] + payload))
      ensures Decoded(s).Some?
    {
      DecodeEncode([version] + payload + sum([version] + payload));
    }
    hide *;
  }

  /** What a text with a good checksum decodes to. */
  lemma CheckedParts(sum: seq<byte> -> seq<byte>, s: string, data: seq<byte>)
    requires IsChecksum(sum) && Decoded(s) == Some(data)
    ensures forall version: byte, payload: seq<byte> :: s == Encoded([version] + payload + sum([version] + payload)) ==>
      |data| >= 5 && data[..|data| - 4] == [version] + payload && data[|data| - 4..] == sum(data[..|data| - 4])
  {
    forall version: byte, payload: seq<byte> | s == Encoded([version] + payload + sum([version] + payload))
      ensures |data| >= 5 && data[..|data| - 4] == [version] + payload && data[|data| - 4..] == sum(data[..|data| - 4])
    {
      DecodeEncode([version] + payload + sum([version] + payload));
      assert |sum([version] + payload)| == 4;
      hide Encoded, Decoded;
    }
    hide *;
  }

  /** Version and payload are all that a checked text holds: distinct pairs have distinct texts. */
  lemma CheckedTextsDiffer(sum: seq<byte> -> seq<byte>, v: byte, p: seq<byte>, w: byte, q: seq<byte>)
    requires IsChecksum(sum)
    requires Encoded([v] + p + sum([v] + p)) == Encoded([w] + q + sum([w] + q))
    ensures v == w && p == q
  {
    var a, b := [v] + p, [w] + q;
    DecodeEncode(a + sum(a));
    DecodeEncode(b + sum(b));
    hide Encoded, Decoded;
    assert |sum(a)| == 4 && |sum(b)| == 4;
    assert a == (a + sum(a))[..|a|] == (b + sum(b))[..|b|] == b;
    assert a[0] == b[0] && a[1..] == p && b[1..] == q;
  }
}
