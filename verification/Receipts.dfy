/**
 Compute receipts: the signed text, hexadecimal keys, generation and verification.
 The signature scheme itself (Ed25519, sections 5.1.6 and 5.1.7 of RFC 8032) is abstract.
 */
module Receipts {
  import opened Wrappers

  // ------------------------------------------------------------- decimals

  predicate IsDigit(c: char) { '0' <= c <= '9' }

  /** %d of a natural number. */
  function Decimal(n: nat): string {
    if n < 10 then [Digit(n)] else Decimal(n / 10) + [Digit(n % 10)]
  }

  /** Exactly `width` digits, with leading zeros. */
  function Padded(n: nat, width: nat): string {
    if width == 0 then "" else Padded(n / 10, width - 1) + [Digit(n % 10)]
  }

  predicate AllDigits(s: string) { forall i :: 0 <= i < |s| ==> IsDigit(s[i]) }

  /** The number a string of digits denotes. */
  function Value(s: string): nat
    requires AllDigits(s)
  {
    if s == "" then 0 else 10 * Value(s[..|s| - 1]) + (s[|s| - 1] as int - '0' as int)
  }

  lemma {:induction false} DecimalReadsBack(n: nat)
    ensures AllDigits(Decimal(n)) && Decimal(n) != "" && Value(Decimal(n)) == n
  {
    var s := Decimal(n);
    if n >= 10 {
      DecimalReadsBack(n / 10);
      assert s[..|s| - 1] == Decimal(n / 10);
    } else {
      assert s[..0] == "";
    }
  }

  function PowerOfTen(width: nat): nat { if width == 0 then 1 else 10 * PowerOfTen(width - 1) }

  lemma {:induction false} PaddedReadsBack(n: nat, width: nat)
    requires n < PowerOfTen(width)
    ensures |Padded(n, width)| == width && AllDigits(Padded(n, width)) && Value(Padded(n, width)) == n
  {
    if width > 0 {
      PaddedReadsBack(n / 10, width - 1);
      var s := Padded(n, width);
      assert s[..|s| - 1] == Padded(n / 10, width - 1);
    }
  }

  // -------------------------------------------------------------- amounts

  const MILLION: nat := 1_000_000

  /** What %f shows of an amount: the sign, and the magnitude in millionths. */
  datatype Fixed = Fixed(negative: bool, micros: nat)

  /** Nearest integer, ties to even. */
  function Nearest(x: real): nat
    requires x >= 0.0
  {
    var lo := x.Floor;
    var frac := x - lo as real;
    if frac < 0.5 || (frac == 0.5 && lo % 2 == 0) then lo else lo + 1
  }

  function Magnitude(x: real): real { if x < 0.0 then -x else x }

  function SixDecimals(x: real): Fixed {
    Fixed(x < 0.0, Nearest(Magnitude(x) * MILLION as real))
  }

  /** `m` millionths are nearest to the amount; of two equally near, the even number. */
  predicate IsNearest(x: real, m: nat) {
    && -0.5 <= Magnitude(x) * 1_000_000.0 - m as real <= 0.5
    && (Magnitude(x) * 1_000_000.0 - m as real == 0.5 || m as real - Magnitude(x) * 1_000_000.0 == 0.5 ==> m % 2 == 0)
  }

  /** The sign is kept and the magnitude is rounded to the nearest millionth, ties to even; nothing else is shown. */
  lemma SixDecimalsIff(x: real, f: Fixed)
    ensures f == SixDecimals(x) <==> (f.negative <==> x < 0.0) && IsNearest(x, f.micros)
  {
    var y := Magnitude(x) * 1_000_000.0;
    assert IsNearest(x, Nearest(y));
    if IsNearest(x, f.micros) { OneNearest(y, f.micros, Nearest(y)); }
  }

  lemma OneNearest(y: real, m: nat, n: nat)
    requires -0.5 <= y - m as real <= 0.5 && (y - m as real == 0.5 || m as real - y == 0.5 ==> m % 2 == 0)
    requires -0.5 <= y - n as real <= 0.5 && (y - n as real == 0.5 || n as real - y == 0.5 ==> n % 2 == 0)
    ensures m == n
  {
  }

  /** Two amounts shown alike are at most one millionth apart. */
  lemma ShownAlikeMeansClose(x: real, y: real)
    requires SixDecimals(x) == SixDecimals(y)
    ensures -1.0 <= (x - y) * MILLION as real <= 1.0
  {
    var a, b := Magnitude(x), Magnitude(y);
    assert -0.5 <= a * MILLION as real - Nearest(a * MILLION as real) as real <= 0.5;
    assert -0.5 <= b * MILLION as real - Nearest(b * MILLION as real) as real <= 0.5;
  }

  function PrintFixed(x: Fixed): string {
    (if x.negative then "-" else "") + Decimal(x.micros / MILLION) + "." + Padded(x.micros % MILLION, 6)
  }

  function ParseFixed(s: string): Option<Fixed> {
    var negative := s != "" && s[0] == '-';
    match ParseMicros(if negative then s[1..] else s)
    case None => None
    case Some(micros) => Some(Fixed(negative, micros))
  }

  /** Digits, a point, and six more digits. */
  function ParseMicros(t: string): Option<nat> {
    if |t| < 8 || t[|t| - 7] != '.' then None
    else
      var whole, frac := t[..|t| - 7], t[|t| - 6..];
      if AllDigits(whole) && AllDigits(frac) then Some(Value(whole) * MILLION + Value(frac)) else None
  }

  lemma SixPlaces()
    ensures PowerOfTen(6) == MILLION
  {
    assert PowerOfTen(6) == 1000 * PowerOfTen(3);
  }

  lemma FixedReadsBack(x: Fixed)
    ensures ParseFixed(PrintFixed(x)) == Some(x)
    ensures ':' !in PrintFixed(x)
  {
    var whole, frac := Decimal(x.micros / MILLION), Padded(x.micros % MILLION, 6);
    DecimalReadsBack(x.micros / MILLION);
    SixPlaces();
    PaddedReadsBack(x.micros % MILLION, 6);
    PartsReadBack(x.negative, whole, frac);
    assert x.micros == x.micros / MILLION * MILLION + x.micros % MILLION;
  }

  lemma PartsReadBack(negative: bool, whole: string, frac: string)
    requires AllDigits(whole) && whole != "" && AllDigits(frac) && |frac| == 6
    ensures var s := (if negative then "-" else "") + whole + "." + frac;
            ParseFixed(s) == Some(Fixed(negative, Value(whole) * MILLION + Value(frac))) && ':' !in s
  {
    MicrosReadBack(whole, frac);
    SignReadsBack(negative, whole, frac);
  }

  lemma SplitsAt(whole: string, frac: string)
    ensures var t := whole + "." + frac;
            var k := |whole|;
            |t| == k + 1 + |frac| && t[k] == '.' && t[..k] == whole && t[k + 1..] == frac
  {
  }

  lemma MicrosReadBack(whole: string, frac: string)
    requires AllDigits(whole) && whole != "" && AllDigits(frac) && |frac| == 6
    ensures ParseMicros(whole + "." + frac) == Some(Value(whole) * MILLION + Value(frac))
  {
    SplitsAt(whole, frac);
    MicrosOf(whole + "." + frac, whole, frac);
  }

  lemma MicrosOf(t: string, whole: string, frac: string)
    requires AllDigits(whole) && AllDigits(frac)
    requires |t| >= 8 && t[|t| - 7] == '.' && t[..|t| - 7] == whole && t[|t| - 6..] == frac
    ensures ParseMicros(t) == Some(Value(whole) * MILLION + Value(frac))
  {
  }

  /** A text that starts with a digit is told from one that starts with a minus sign, and neither has a colon. */
  lemma SignReadsBack(negative: bool, whole: string, frac: string)
    requires AllDigits(whole) && whole != "" && AllDigits(frac)
    ensures var body := whole + "." + frac;
            var s := (if negative then "-" else "") + whole + "." + frac;
            && (if negative then s[0] == '-' && s[1..] == body else s == body && s[0] != '-')
            && ':' !in s
  {
    assert IsDigit(whole[0]);
    assert forall c :: c in whole ==> IsDigit(c);
    assert forall c :: c in frac ==> IsDigit(c);
  }

  // --------------------------------------------------------- the signed text

  datatype Receipt = Receipt(taskId: nat, workerId: string, executionTimeMs: real,
                             pricePerMs: real, totalPrice: real, signature: string)

  /** The five fields as the text shows them. */
  datatype Fields = Fields(taskId: nat, workerId: string, time: Fixed, rate: Fixed, total: Fixed)

  function Shown(r: Receipt): Fields {
    Fields(r.taskId, r.workerId, SixDecimals(r.executionTimeMs), SixDecimals(r.pricePerMs), SixDecimals(r.totalPrice))
  }

  function Joined(task: string, worker: string, time: string, rate: string, total: string): string {
    task + ":" + worker + ":" + time + ":" + rate + ":" + total
  }

  function PrintFields(f: Fields): string {
    Joined(Decimal(f.taskId), f.workerId, PrintFixed(f.time), PrintFixed(f.rate), PrintFixed(f.total))
  }

  function SignedText(r: Receipt): string { PrintFields(Shown(r)) }

  /** Before and after the first colon. */
  function SplitFirst(s: string): Option<(string, string)> {
    if s == "" then None
    else if s[0] == ':' then Some(("", s[1..]))
    else match SplitFirst(s[1..])
      case None => None
      case Some((a, b)) => Some(([s[0]] + a, b))
  }

  /** Before and after the last colon. */
  function SplitLast(s: string): Option<(string, string)> {
    if s == "" then None
    else
      var n := |s| - 1;
      if s[n] == ':' then Some((s[..n], ""))
      else match SplitLast(s[..n])
        case None => None
        case Some((a, b)) => Some((a, b + [s[n]]))
  }

  lemma {:induction false} SplitFirstFinds(a: string, b: string)
    requires ':' !in a
    ensures SplitFirst(a + ":" + b) == Some((a, b))
  {
    var s := a + ":" + b;
    if a == "" {
      assert s[1..] == b;
    } else {
      SplitFirstFinds(a[1..], b);
      assert s[1..] == a[1..] + ":" + b;
      assert [a[0]] + a[1..] == a;
    }
  }

  lemma {:induction false} SplitLastFinds(a: string, b: string)
    requires ':' !in b
    ensures SplitLast(a + ":" + b) == Some((a, b))
  {
    var s := a + ":" + b;
    var n := |s| - 1;
    if b == "" {
      assert s[..n] == a;
    } else {
      SplitLastFinds(a, b[..|b| - 1]);
      assert s[..n] == a + ":" + b[..|b| - 1];
      assert b[..|b| - 1] + [b[|b| - 1]] == b;
    }
  }

  /** Splits at the first colon and at the last three; the worker ID is whatever lies between. */
  function SplitFields(s: string): Option<(string, string, string, string, string)> {
    match SplitFirst(s)
    case None => None
    case Some((task, r0)) =>
      match SplitLast(r0)
      case None => None
      case Some((r1, total)) =>
        match SplitLast(r1)
        case None => None
        case Some((r2, rate)) =>
          match SplitLast(r2)
          case None => None
          case Some((worker, time)) => Some((task, worker, time, rate, total))
  }

  lemma JoinedSplits(task: string, worker: string, time: string, rate: string, total: string)
    requires ':' !in task && ':' !in time && ':' !in rate && ':' !in total
    ensures SplitFields(Joined(task, worker, time, rate, total)) == Some((task, worker, time, rate, total))
  {
    var r2 := worker + ":" + time;
    var r1 := r2 + ":" + rate;
    var r0 := r1 + ":" + total;
    assert Joined(task, worker, time, rate, total) == task + ":" + r0;
    SplitFirstFinds(task, r0);
    SplitLastFinds(r1, total);
    SplitLastFinds(r2, rate);
    SplitLastFinds(worker, time);
  }

  function ParseFields(s: string): Option<Fields> {
    match SplitFields(s)
    case None => None
    case Some((task, worker, time, rate, total)) =>
      if task == "" || !AllDigits(task) then None
      else match (ParseFixed(time), ParseFixed(rate), ParseFixed(total))
        case (Some(x), Some(y), Some(z)) => Some(Fields(Value(task), worker, x, y, z))
        case _ => None
  }

  /** The text can be read back, whatever the worker ID contains. */
  lemma TextReadsBack(f: Fields)
    ensures ParseFields(PrintFields(f)) == Some(f)
  {
    DecimalReadsBack(f.taskId);
    FixedReadsBack(f.time);
    FixedReadsBack(f.rate);
    FixedReadsBack(f.total);
    JoinedSplits(Decimal(f.taskId), f.workerId, PrintFixed(f.time), PrintFixed(f.rate), PrintFixed(f.total));
  }

  /** Receipts with equal signed text agree on task, worker and all three amounts as shown. */
  lemma SignedTextIsUnambiguous(r: Receipt, q: Receipt)
    requires SignedText(r) == SignedText(q)
    ensures r.taskId == q.taskId && r.workerId == q.workerId
    ensures SixDecimals(r.executionTimeMs) == SixDecimals(q.executionTimeMs)
    ensures SixDecimals(r.pricePerMs) == SixDecimals(q.pricePerMs)
    ensures SixDecimals(r.totalPrice) == SixDecimals(q.totalPrice)
  {
    TextReadsBack(Shown(r));
    TextReadsBack(Shown(q));
  }

  /** The signed text states the receipt's own fields, in their order, each amount to the nearest millionth. */
  lemma SignedTextStatesTheReceipt(r: Receipt)
    ensures var f := ParseFields(SignedText(r));
            && f.Some? && f.value.taskId == r.taskId && f.value.workerId == r.workerId
            && IsNearest(r.executionTimeMs, f.value.time.micros) && (f.value.time.negative <==> r.executionTimeMs < 0.0)
            && IsNearest(r.pricePerMs, f.value.rate.micros) && (f.value.rate.negative <==> r.pricePerMs < 0.0)
            && IsNearest(r.totalPrice, f.value.total.micros) && (f.value.total.negative <==> r.totalPrice < 0.0)
  {
    TextReadsBack(Shown(r));
    SixDecimalsIff(r.executionTimeMs, SixDecimals(r.executionTimeMs));
    SixDecimalsIff(r.pricePerMs, SixDecimals(r.pricePerMs));
    SixDecimalsIff(r.totalPrice, SixDecimals(r.totalPrice));
  }

  lemma PrintsAs(x: Fixed, whole: nat, frac: nat)
    requires !x.negative && frac < 1_000_000 && x.micros == whole * 1_000_000 + frac
    ensures PrintFixed(x) == Decimal(whole) + "." + Padded(frac, 6)
  {
    assert x.micros / MILLION == whole && x.micros % MILLION == frac;
  }

  lemma ShowsAs(x: real, whole: nat, frac: nat)
    requires x >= 0.0 && frac < 1_000_000 && x * 1_000_000.0 == (whole * 1_000_000 + frac) as real
    ensures PrintFixed(SixDecimals(x)) == Decimal(whole) + "." + Padded(frac, 6)
  {
    var f := Fixed(false, whole * 1_000_000 + frac);
    SixDecimalsIff(x, f);
    PrintsAs(f, whole, frac);
  }

  lemma OneReceiptsTime()
    ensures Decimal(1) + "." + Padded(500000, 6) == "1.500000"
  {
  }

  lemma OneReceiptsRate()
    ensures Decimal(0) + "." + Padded(250000, 6) == "0.250000"
  {
  }

  lemma OneReceiptsTotal()
    ensures Decimal(0) + "." + Padded(375000, 6) == "0.375000"
  {
  }

  lemma OneReceiptsText()
    ensures Joined("17", "w:1", "1.500000", "0.250000", "0.375000") == "17:w:1:1.500000:0.250000:0.375000"
  {
  }

  /** One receipt's text, letter by letter. */
  lemma SignedTextOfOneReceipt(r: Receipt)
    requires r.taskId == 17 && r.workerId == "w:1"
    requires r.executionTimeMs == 1.5 && r.pricePerMs == 0.25 && r.totalPrice == 0.375
    ensures SignedText(r) == "17:w:1:1.500000:0.250000:0.375000"
  {
    ShowsAs(r.executionTimeMs, 1, 500000);
    ShowsAs(r.pricePerMs, 0, 250000);
    ShowsAs(r.totalPrice, 0, 375000);
    OneReceiptsTime();
    OneReceiptsRate();
    OneReceiptsTotal();
    OneReceiptsText();
    assert Decimal(17) == "17";
  }

  // ------------------------------------------------------------------- hex

  newtype octet = n: int | 0 <= n < 256

  function HexEncode(bs: seq<octet>): string {
    if bs == [] then ""
    else [HexDigit(bs[0] as int / 16), HexDigit(bs[0] as int % 16)] + HexEncode(bs[1..])
  }

  function HexDecode(s: string): Option<seq<octet>> {
    if s == "" then Some([])
    else if |s| == 1 then None
    else match (HexValue(s[0]), HexValue(s[1]), HexDecode(s[2..]))
      case (Some(a), Some(b), Some(rest)) =>
        if a < 16 && b < 16 then Some([(16 * a + b) as octet] + rest) else None
      case _ => None
  }

  lemma {:induction false} HexReadsBack(bs: seq<octet>)
    ensures HexDecode(HexEncode(bs)) == Some(bs)
  {
    if bs != [] {
      HexReadsBack(bs[1..]);
      assert HexEncode(bs)[2..] == HexEncode(bs[1..]);
      assert [bs[0]] + bs[1..] == bs;
    }
  }

  function LowerLetter(c: char): char {
    if 'A' <= c <= 'F' then (c as int - 'A' as int + 'a' as int) as char else c
  }

  function Lower(s: string): string { if s == "" then "" else [LowerLetter(s[0])] + Lower(s[1..]) }

  lemma DigitDecodesIff(c: char, d: nat)
    requires d < 16
    ensures HexValue(c) == Some(d) <==> LowerLetter(c) == HexDigit(d)
  {
  }

  lemma PairDecodesIff(s: string, bs: seq<octet>)
    requires |s| >= 2 && bs != []
    requires HexDecode(s[2..]) == Some(bs[1..]) <==> Lower(s[2..]) == HexEncode(bs[1..])
    ensures HexDecode(s) == Some(bs) <==> Lower(s) == HexEncode(bs)
  {
    DigitDecodesIff(s[0], bs[0] as int / 16);
    DigitDecodesIff(s[1], bs[0] as int % 16);
    PairDecodes(s, bs);
    PairEncodes(s, bs);
  }

  lemma PairDecodes(s: string, bs: seq<octet>)
    requires |s| >= 2 && bs != []
    ensures HexDecode(s) == Some(bs)
       <==> && HexValue(s[0]) == Some(bs[0] as int / 16) && HexValue(s[1]) == Some(bs[0] as int % 16)
            && HexDecode(s[2..]) == Some(bs[1..])
  {
    assert bs == [bs[0]] + bs[1..];
  }

  lemma PairEncodes(s: string, bs: seq<octet>)
    requires |s| >= 2 && bs != []
    ensures Lower(s) == HexEncode(bs)
       <==> && LowerLetter(s[0]) == HexDigit(bs[0] as int / 16) && LowerLetter(s[1]) == HexDigit(bs[0] as int % 16)
            && Lower(s[2..]) == HexEncode(bs[1..])
  {
    var low, hex := Lower(s), HexEncode(bs);
    assert s[1..][1..] == s[2..];
    assert low == [LowerLetter(s[0]), LowerLetter(s[1])] + Lower(s[2..]);
    assert low[2..] == Lower(s[2..]) && hex[2..] == HexEncode(bs[1..]);
  }

  /** A text decodes to these bytes exactly when, its capital letters lowered, it is their encoding. */
  lemma {:induction false} HexDecodesIff(s: string, bs: seq<octet>)
    ensures HexDecode(s) == Some(bs) <==> Lower(s) == HexEncode(bs)
  {
    if |s| >= 2 && bs != [] {
      HexDecodesIff(s[2..], bs[1..]);
      PairDecodesIff(s, bs);
    } else if |s| == 1 {
      assert |Lower(s)| == 1;
    }
  }

  // ------------------------------------------- generation and verification

  /** A 64-byte private key is the seed followed by the public key. */
  datatype Scheme = Scheme(
    publicOf: seq<octet> -> seq<octet>,
    sign: (seq<octet>, string) -> seq<octet>,
    verify: (seq<octet>, string, seq<octet>) -> bool)

  predicate KeyPair(e: Scheme, priv: seq<octet>) { |priv| == 64 && e.publicOf(priv[..32]) == priv[32..] }

  /** What the standard promises of signing and verifying with one key pair. */
  ghost predicate Correct(e: Scheme) {
    forall priv, msg :: KeyPair(e, priv) ==> e.verify(priv[32..], msg, e.sign(priv, msg))
  }

  datatype KeyError = MissingKey | InvalidKey | InvalidSignature

  predicate KeyOf(privHex: string, size: nat) { HexDecode(privHex).Some? && |HexDecode(privHex).value| == size }

  method GenerateReceipt(e: Scheme, taskId: nat, workerId: string, timeMs: real, rate: real, privHex: string)
    returns (r: Result<Receipt, KeyError>)
    ensures r == Err(MissingKey) <==> privHex == ""
    ensures r == Err(InvalidKey) <==> privHex != "" && !KeyOf(privHex, 64)
    ensures r.Ok? <==> KeyOf(privHex, 64)
    ensures r.Ok? ==> r.value == Receipt(taskId, workerId, timeMs, rate, timeMs * rate, r.value.signature)
    ensures Correct(e) && r.Ok? && KeyPair(e, HexDecode(privHex).value) ==>
              Verified(e, r.value, HexEncode(HexDecode(privHex).value[32..])) == Ok(true)
    ensures r.Ok? ==>
              r.value == Signed(e, HexDecode(privHex).value, Receipt(taskId, workerId, timeMs, rate, timeMs * rate, ""))
  {
    if privHex == "" { return Err(MissingKey); }
    var key := HexDecode(privHex);
    if key.None? || |key.value| != 64 { return Err(InvalidKey); }
    var receipt := Receipt(taskId, workerId, timeMs, rate, timeMs * rate, "");
    var signature := HexEncode(e.sign(key.value, SignedText(receipt)));
    r := Ok(receipt.(signature := signature));
    assert r.value == Signed(e, key.value, receipt);
    if Correct(e) && KeyPair(e, key.value) { SignedVerifies(e, key.value, receipt); }
  }

  /** The receipt with its signature in place of the one it has. */
  function Signed(e: Scheme, priv: seq<octet>, receipt: Receipt): Receipt {
    receipt.(signature := HexEncode(e.sign(priv, SignedText(receipt))))
  }

  lemma SignedVerifies(e: Scheme, priv: seq<octet>, receipt: Receipt)
    requires Correct(e) && KeyPair(e, priv)
    ensures Verified(e, Signed(e, priv, receipt), HexEncode(priv[32..])) == Ok(true)
  {
    var r := Signed(e, priv, receipt);
    HexReadsBack(priv[32..]);
    HexReadsBack(e.sign(priv, SignedText(receipt)));
    assert Shown(r) == Shown(receipt);
    assert SignedText(r) == SignedText(receipt);
    assert e.verify(priv[32..], SignedText(receipt), e.sign(priv, SignedText(receipt)));
    assert HexEncode(priv[32..]) != "";
  }

  /** The same as a function, for statements about every input. */
  function Generated(e: Scheme, taskId: nat, workerId: string, timeMs: real, rate: real, privHex: string)
    : (r: Result<Receipt, KeyError>)
  {
    match HexDecode(privHex)
    case None => Err(InvalidKey)
    case Some(priv) =>
      if privHex == "" then Err(MissingKey)
      else if |priv| != 64 then Err(InvalidKey)
      else
        Ok(Signed(e, priv, Receipt(taskId, workerId, timeMs, rate, timeMs * rate, "")))
  }

  method VerifyReceipt(e: Scheme, receipt: Receipt, pubHex: string) returns (r: Result<bool, KeyError>)
    ensures r == Err(MissingKey) <==> pubHex == ""
    ensures r == Err(InvalidKey) <==> pubHex != "" && !KeyOf(pubHex, 32)
    ensures r == Err(InvalidSignature) <==> KeyOf(pubHex, 32) && HexDecode(receipt.signature).None?
    ensures forall q: Receipt :: Shown(q) == Shown(receipt) && q.signature == receipt.signature ==>
              r == Verified(e, q, pubHex)
    ensures r == Ok(true) <==>
            && KeyOf(pubHex, 32) && HexDecode(receipt.signature).Some?
            && e.verify(HexDecode(pubHex).value, PrintFields(Shown(receipt)), HexDecode(receipt.signature).value)
  {
    if pubHex == "" { return Err(MissingKey); }
    var key := HexDecode(pubHex);
    if key.None? || |key.value| != 32 { return Err(InvalidKey); }
    var sig := HexDecode(receipt.signature);
    if sig.None? { return Err(InvalidSignature); }
    r := Ok(e.verify(key.value, SignedText(receipt), sig.value));
  }

  function Verified(e: Scheme, receipt: Receipt, pubHex: string): Result<bool, KeyError> {
    match HexDecode(pubHex)
    case None => Err(InvalidKey)
    case Some(pub) =>
      if pubHex == "" then Err(MissingKey)
      else if |pub| != 32 then Err(InvalidKey)
      else match HexDecode(receipt.signature)
        case None => Err(InvalidSignature)
        case Some(sig) => Ok(e.verify(pub, SignedText(receipt), sig))
  }

  /** A receipt is generated exactly for a 64-byte key, and under the matching public key it always verifies. */
  lemma GeneratedReceiptsVerify(e: Scheme, taskId: nat, workerId: string, timeMs: real, rate: real, privHex: string)
    requires Correct(e)
    ensures var g := Generated(e, taskId, workerId, timeMs, rate, privHex);
            && (g == Err(MissingKey) <==> privHex == "")
            && (g.Ok? ==> g.value == Receipt(taskId, workerId, timeMs, rate, timeMs * rate, g.value.signature))
            && (g.Ok? <==> HexDecode(privHex).Some? && |HexDecode(privHex).value| == 64)
            && (g.Ok? && KeyPair(e, HexDecode(privHex).value) ==>
                  Verified(e, g.value, HexEncode(HexDecode(privHex).value[32..])) == Ok(true))
  {
    var key := HexDecode(privHex);
    if key.Some? && KeyPair(e, key.value) {
      SignedVerifies(e, key.value, Receipt(taskId, workerId, timeMs, rate, timeMs * rate, ""));
    }
  }
}
