/**
 * The frame-header decision of the connection's read loop (conn.go:117-145).
 *
 * The loop reads a 4-byte header and interprets it twice: first as decimal
 * text with Go's strconv.Atoi, rejecting a result of 0 (which is also what
 * Atoi returns on a syntax error), then as a little-endian int32 declared
 * payload size, rejecting sizes above 1000000. The lemmas at the end show
 * that no header gets through both checks: a header that Atoi accepts ends
 * in an ASCII digit, so its little-endian value is at least 0x30000000.
 */
module Header {
  import opened Protocol

  /** Number of header bytes read before each payload. */
  const HeaderSize: nat := 4
  /** Largest declared payload size the read loop accepts. */
  const MaxDataSize: int := 1000000

  const Zero: uint8 := 0x30   // '0'
  const Nine: uint8 := 0x39   // '9'
  const Plus: uint8 := 0x2B   // '+'
  const Minus: uint8 := 0x2D  // '-'

  predicate IsDigit(b: uint8) {
    Zero <= b <= Nine
  }

  /**
   * The value Atoi accumulates over a run of bytes, left to right
   * (n := n * 10 + digit), or None once a byte is not a decimal digit.
   */
  function Digits(s: seq<uint8>): (r: Option<nat>)
    ensures r.Some? <==> forall i :: 0 <= i < |s| ==> IsDigit(s[i])
    ensures r.Some? ==> (r.value == 0 <==> forall i :: 0 <= i < |s| ==> s[i] == Zero)
  {
    if |s| == 0 then Some(0)
    else
      var init, last := s[..|s| - 1], s[|s| - 1];
      assert forall i :: 0 <= i < |init| ==> init[i] == s[i];
      match Digits(init)
      case None => None
      case Some(n) => if IsDigit(last) then Some(10 * n + (last - Zero)) else None
  }

  /** The bytes Atoi reads as digits: everything after an optional sign. */
  function Unsigned(s: seq<uint8>): (body: seq<uint8>) {
    if |s| > 0 && (s[0] == Plus || s[0] == Minus) then s[1..] else s
  }

  /** The syntax Atoi accepts: an optional sign, then at least one decimal digit and nothing else. */
  predicate WellFormedDecimal(s: seq<uint8>) {
    var body := Unsigned(s);
    |body| > 0 && forall i :: 0 <= i < |body| ==> IsDigit(body[i])
  }

  /** Go's (value, error) pair from strconv.Atoi; `ok` is `err == nil`. */
  datatype AtoiResult = AtoiResult(value: int, ok: bool)

  /**
   * strconv.Atoi on a string of fewer than 19 bytes: an optional '+' or
   * '-', then at least one digit. On a syntax error the value is 0. Go takes
   * its fast path for every such non-empty string on a 64-bit platform; the
   * empty string goes through ParseInt and also yields 0 with a syntax error.
   */
  function Atoi(s: seq<uint8>): (r: AtoiResult)
    requires |s| < 19
    ensures r.ok <==> WellFormedDecimal(s)
    ensures !r.ok ==> r.value == 0
    ensures r.ok ==> (r.value == 0 <==> forall i :: 0 <= i < |Unsigned(s)| ==> Unsigned(s)[i] == Zero)
  {
    if |s| == 0 then AtoiResult(0, false)
    else
      var body := if s[0] == Plus || s[0] == Minus then s[1..] else s;
      if |body| < 1 then AtoiResult(0, false)
      else
        match Digits(body)
        case None => AtoiResult(0, false)
        case Some(n) => AtoiResult(if s[0] == Minus then -(n as int) else n, true)
  }

  /** binary.Read of an int32 in little-endian order from exactly four bytes. */
  function LittleEndianInt32(b: seq<uint8>): (r: int)
    requires |b| == 4
    ensures -0x8000_0000 <= r < 0x8000_0000
    ensures 0 <= r <==> b[3] < 0x80
    ensures r % 0x1_0000_0000 == b[0] as int + 0x100 * (b[1] as int) + 0x1_0000 * (b[2] as int) + 0x100_0000 * (b[3] as int)
  {
    var u := b[0] as int + 0x100 * (b[1] as int) + 0x1_0000 * (b[2] as int) + 0x100_0000 * (b[3] as int);
    if u < 0x8000_0000 then u else u - 0x1_0000_0000
  }

  /** What the read loop does after the header: reject it with an error, or read `size` payload bytes. */
  datatype HeaderDecision = Reject(err: Error) | ReadPayload(size: int)

  /** The two checks of conn.go:124-145, in the order the loop makes them. */
  function DecideHeader(h: seq<uint8>): (d: HeaderDecision)
    requires |h| == HeaderSize
    ensures d == Reject(DataHeaderError) <==> Atoi(h).value == 0
    ensures d.Reject? ==> d.err == DataHeaderError || d.err == OutOfMemory
    ensures d.ReadPayload? ==> Atoi(h).value != 0 && d.size == LittleEndianInt32(h) <= MaxDataSize
  {
    if Atoi(h).value == 0 then Reject(DataHeaderError)
    else if LittleEndianInt32(h) > MaxDataSize then Reject(OutOfMemory)
    else ReadPayload(LittleEndianInt32(h))
  }

  /** The header is rejected as "data header error" exactly when Atoi fails or yields zero. */
  lemma DataHeaderErrorExactly(h: seq<uint8>)
    requires |h| == HeaderSize
    ensures DecideHeader(h) == Reject(DataHeaderError) <==>
              !WellFormedDecimal(h) || forall i :: 0 <= i < |Unsigned(h)| ==> Unsigned(h)[i] == Zero
  {
  }

  /** A header that passes the Atoi check ends in an ASCII digit. */
  lemma AtoiAcceptedEndsInDigit(s: seq<uint8>)
    requires |s| < 19
    requires Atoi(s).value != 0
    ensures |s| > 0 && IsDigit(s[|s| - 1])
  {
    var body := Unsigned(s);
    assert body[|body| - 1] == s[|s| - 1];
  }

  /** A header whose last byte is an ASCII digit declares a size of at least 0x30000000. */
  lemma DigitHeaderIsLarge(h: seq<uint8>)
    requires |h| == HeaderSize
    requires IsDigit(h[3])
    ensures LittleEndianInt32(h) >= 0x3000_0000 > MaxDataSize
  {
  }

  /**
   * Every header is rejected: "data header error" when Atoi fails or yields
   * zero, "out of memory" otherwise. No payload size ever gets through.
   */
  lemma HeaderAlwaysRejected(h: seq<uint8>)
    requires |h| == HeaderSize
    ensures DecideHeader(h).Reject?
    ensures DecideHeader(h).err == if Atoi(h).value == 0 then DataHeaderError else OutOfMemory
  {
    if Atoi(h).value != 0 {
      AtoiAcceptedEndsInDigit(h);
      DigitHeaderIsLarge(h);
    }
  }

  /** The concrete headers "0000", "+000", "abcd" and "12\r\n" are data header errors; "1234" is out of memory. */
  lemma HeaderExamples()
    ensures DecideHeader([Zero, Zero, Zero, Zero]) == Reject(DataHeaderError)
    ensures DecideHeader([Plus, Zero, Zero, Zero]) == Reject(DataHeaderError)
    ensures DecideHeader([0x61, 0x62, 0x63, 0x64]) == Reject(DataHeaderError)
    ensures DecideHeader([0x31, 0x32, 0x0D, 0x0A]) == Reject(DataHeaderError)
    ensures DecideHeader([0x31, 0x32, 0x33, 0x34]) == Reject(OutOfMemory)
  {
    assert Digits([Zero, Zero, Zero]) == Some(0);
    assert !IsDigit(0x61);
    assert !IsDigit(0x0D);
    assert Digits([0x31, 0x32, 0x33, 0x34]).Some?;
  }
}
