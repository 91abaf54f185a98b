/** Base-128 variable-length integers. */
module Varints {
  import opened Widths
  import opened Texts
  import opened Outcomes

  const MAX_LEN := 10

  /** binary.AppendUvarint. */
  function Uvarint(n: nat): (b: Text)
    ensures b != []
  {
    if n < 128 then [n as Byte] else [(128 + n % 128) as Byte] + Uvarint(n / 128)
  }

  datatype Varint = Varint(value: nat, size: nat)

  /** What reading a varint from b gives once i of its bytes have been read: at most
      ten bytes, and in the tenth no more than the one bit that fits. */
  function GetUvarint(b: Text, i: nat): (r: Outcome<Varint>)
    requires i <= MAX_LEN
    ensures r.Ok? ==> 0 < r.value.size <= |b| && r.value.size <= MAX_LEN - i
    decreases |b|
  {
    if i == MAX_LEN || b == [] then Failed
    else if b[0] < 128 then
      if i == MAX_LEN - 1 && b[0] > 1 then Failed else Ok(Varint(b[0] as int, 1))
    else
      match GetUvarint(b[1..], i + 1)
      case Failed => Failed
      case Ok(rest) => Ok(Varint(b[0] as int - 128 + 128 * rest.value, rest.size + 1))
  }

  /** Whether reading stopped for want of bytes, rather than on a bad one. */
  predicate RanOut(b: Text, i: nat)
    requires i <= MAX_LEN
    decreases |b|
  {
    i < MAX_LEN && (b == [] || (b[0] >= 128 && RanOut(b[1..], i + 1)))
  }

  /** One more than the largest value that the bytes from the i-th on can hold. */
  function Room(i: nat): nat
    requires i < MAX_LEN
    decreases MAX_LEN - i
  {
    if i == MAX_LEN - 1 then 2 else 128 * Room(i + 1)
  }

  lemma RoomForAll()
    ensures Room(0) == TWO_64
  {
    assert Room(6) == 0x40_0000;
    assert Room(3) == 0x800_0000_0000;
  }

  /** A varint reads back, whatever follows it. */
  lemma {:induction false} UvarintReads(n: nat, i: nat, after: Text)
    requires i < MAX_LEN && n < Room(i)
    ensures GetUvarint(Uvarint(n) + after, i) == Ok(Varint(n, |Uvarint(n)|))
    decreases n
  {
    var b := Uvarint(n) + after;
    if n < 128 {
      assert b[0] as int == n;
    } else {
      assert b[1..] == Uvarint(n / 128) + after;
      UvarintReads(n / 128, i + 1, after);
    }
  }

  /** Every 64-bit value round-trips, and takes at most ten bytes. */
  lemma UvarintRoundTrip(n: nat, after: Text)
    requires n < TWO_64
    ensures GetUvarint(Uvarint(n) + after, 0) == Ok(Varint(n, |Uvarint(n)|)) && |Uvarint(n)| <= MAX_LEN
  {
    RoomForAll();
    UvarintReads(n, 0, after);
  }
}
