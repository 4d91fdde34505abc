/**
 * Generation of an item's `unique_id` (`generateUniqueID` in RequestItem and
 * TTSItem): hex-encoding of 16 random bytes or, when the random source
 * fails, 16 characters drawn from a 62-character pool. The randomness is a
 * parameter: a `Seed` stands for what the random source returned.
 */
module UniqueId {
  import opened Wrappers
  import opened PhpStrings

  type Byte = x: int | 0 <= x < 256

  const IdBytes := 16
  const HexDigits := "0123456789abcdef"
  /** `range(0, 9)`, then `range('a', 'z')`, then `range('A', 'Z')`. */
  const Pool := "0123456789abcdefghijklmnopqrstuvwxyzABCDEFGHIJKLMNOPQRSTUVWXYZ"

  /** What the random source produced: 16 bytes, or (after it threw) 16 `mt_rand` picks into the pool. */
  datatype IdSource = RandomBytes(bytes: seq<Byte>) | Fallback(picks: seq<nat>)

  predicate ValidSource(s: IdSource) {
    match s
    case RandomBytes(b) => |b| == IdBytes
    case Fallback(p) => |p| == IdBytes && forall k :: 0 <= k < |p| ==> p[k] < |Pool|
  }

  type Seed = s: IdSource | ValidSource(s) witness RandomBytes(seq(16, _ => 0))

  /** `bin2hex`: two lower-case hex digits per byte, high nibble first. */
  function Bin2Hex(b: seq<Byte>): (r: string)
    ensures |r| == 2 * |b|
    ensures forall i :: 0 <= i < |r| ==> r[i] in HexDigits
  {
    if |b| == 0 then [] else [HexDigits[b[0] / 16], HexDigits[b[0] % 16]] + Bin2Hex(b[1..])
  }

  /** The value of a hex digit (0 for any other character). */
  function HexValue(c: char): (v: nat)
    ensures v < 16
  {
    if '0' <= c <= '9' then c as int - '0' as int
    else if 'a' <= c <= 'f' then c as int - 'a' as int + 10
    else 0
  }

  /** `hex2bin` on a string of hex digit pairs. */
  function Hex2Bin(s: string): seq<Byte>
    decreases |s|
  {
    if |s| < 2 then [] else [HexValue(s[0]) * 16 + HexValue(s[1])] + Hex2Bin(s[2..])
  }

  lemma HexValueOfDigit(d: nat)
    requires d < 16
    ensures HexValue(HexDigits[d]) == d
  {
  }

  /** A byte is its high nibble times 16 plus its low nibble. */
  lemma NibbleSplit(x: Byte)
    ensures x / 16 < 16 && x % 16 < 16 && (x / 16) * 16 + x % 16 == x
  {
  }

  /** Decoding one encoded byte in front of the rest. */
  lemma HexPairStep(x: Byte, t: string)
    ensures Hex2Bin([HexDigits[x / 16], HexDigits[x % 16]] + t) == [x] + Hex2Bin(t)
  {
    NibbleSplit(x);
    HexValueOfDigit(x / 16);
    HexValueOfDigit(x % 16);
    var s := [HexDigits[x / 16], HexDigits[x % 16]] + t;
    assert s[2..] == t;
  }

  /** Hex encoding loses nothing: decoding gives back the bytes. */
  lemma {:induction false} HexRoundTrip(b: seq<Byte>)
    ensures Hex2Bin(Bin2Hex(b)) == b
  {
    if |b| > 0 {
      HexPairStep(b[0], Bin2Hex(b[1..]));
      HexRoundTrip(b[1..]);
      assert [b[0]] + b[1..] == b;
    }
  }

  predicate IsHexId(s: string) {
    |s| == 2 * IdBytes && forall i :: 0 <= i < |s| ==> s[i] in HexDigits
  }

  predicate IsPoolId(s: string) {
    |s| == IdBytes && forall i :: 0 <= i < |s| ==> s[i] in Pool
  }

  /** The identifier a seed yields. */
  function GenerateId(seed: Seed): (r: string)
    ensures seed.RandomBytes? ==> IsHexId(r)
    ensures seed.Fallback? ==> IsPoolId(r)
    ensures Truthy(Some(r))
  {
    match seed
    case RandomBytes(b) => Bin2Hex(b)
    case Fallback(p) => seq(|p|, k requires 0 <= k < |p| => Pool[p[k]])
  }

  /** Ids from the primary path collide only if the random bytes did. */
  lemma DistinctBytesDistinctIds(s1: Seed, s2: Seed)
    requires s1.RandomBytes? && s2.RandomBytes? && s1.bytes != s2.bytes
    ensures GenerateId(s1) != GenerateId(s2)
  {
    HexRoundTrip(s1.bytes);
    HexRoundTrip(s2.bytes);
  }

  /**
   * `generateUniqueID` on the attribute's current value: a truthy value is
   * kept, anything else (absent, null, "", "0") is replaced by a fresh id.
   */
  function EnsureId(current: Option<string>, seed: Seed): (r: string)
    ensures Truthy(current) ==> r == current.value
    ensures !Truthy(current) ==> r == GenerateId(seed)
    ensures Truthy(Some(r))
  {
    if Truthy(current) then current.value else GenerateId(seed)
  }
}
