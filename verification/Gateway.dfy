/** The gateway address of an egress front: a base address plus the id, added
    byte by byte with a carry in the 16-byte form. */
module Gateway {
  import opened Results
  import Egress

  type Byte = x: int | 0 <= x < 256

  /** An address of four or sixteen bytes, most significant first. */
  datatype Address = Address(v4: bool, bytes: seq<Byte>) {
    predicate Valid()
    {
      |bytes| == if v4 then 4 else 16
    }
  }

  function Value(bytes: seq<Byte>): nat
  {
    if bytes == [] then 0 else 256 * Value(bytes[..|bytes| - 1]) + bytes[|bytes| - 1]
  }

  function Pow256(n: nat): nat
    ensures Pow256(n) > 0
  {
    if n == 0 then 1 else 256 * Pow256(n - 1)
  }

  lemma {:induction false} ValueBound(bytes: seq<Byte>)
    ensures Value(bytes) < Pow256(|bytes|)
  {
    if bytes != [] {
      ValueBound(bytes[..|bytes| - 1]);
    }
  }

  lemma {:induction false} ValueSplit(high: seq<Byte>, low: seq<Byte>)
    ensures Value(high + low) == Value(high) * Pow256(|low|) + Value(low)
  {
    if low == [] {
      assert high + low == high;
    } else {
      var init := low[..|low| - 1];
      assert (high + low)[..|high + low| - 1] == high + init;
      ValueSplit(high, init);
      assert 256 * (Value(high) * Pow256(|init|)) == Value(high) * Pow256(|low|);
    }
  }

  lemma {:induction false} ValueInjective(a: seq<Byte>, b: seq<Byte>)
    requires |a| == |b| && Value(a) == Value(b)
    ensures a == b
  {
    if a != [] {
      ValueInjective(a[..|a| - 1], b[..|b| - 1]);
      assert a == a[..|a| - 1] + [a[|a| - 1]] && b == b[..|b| - 1] + [b[|b| - 1]];
    }
  }

  /** The 16-byte form: an IPv4 address sits behind ten zero bytes and two of 255
      (the IPv4-mapped form, section 2.5.5.2 of RFC 4291). */
  const MAPPED: seq<Byte> := [0, 0, 0, 0, 0, 0, 0, 0, 0, 0, 255, 255]

  function As16(a: Address): (bytes: seq<Byte>)
    requires a.Valid()
    ensures |bytes| == 16
  {
    if a.v4 then MAPPED + a.bytes else a.bytes
  }

  lemma AtLeastOnce(x: nat, p: nat)
    requires x > 0
    ensures x * p >= p
  {
    assert x * p == (x - 1) * p + p;
  }

  lemma CarryArithmetic(front: nat, front': nat, carry: nat, up: nat, p: nat)
    requires front + carry == front' + 256 * up
    ensures front' * p + up * (256 * p) == front * p + carry * p
  {
    assert up * (256 * p) == (256 * up) * p;
    assert front' * p + (256 * up) * p == (front' + 256 * up) * p;
    assert front * p + carry * p == (front + carry) * p;
  }

  lemma ValueAppend(high: seq<Byte>, digit: Byte)
    ensures Value(high + [digit]) == 256 * Value(high) + digit
  {
    assert (high + [digit])[..|high|] == high;
  }

  /** One byte of the addition keeps the total; `i` counts the bytes still to add into. */
  lemma CarryStep(before: seq<Byte>, after: seq<Byte>, i: nat, carry: nat, up: nat)
    requires i < |before| && |after| == |before| && after == before[i := after[i]]
      && carry + before[i] == 256 * up + after[i]
    ensures Value(after) + up * Pow256(|before| - i) == Value(before) + carry * Pow256(|before| - 1 - i)
  {
    var high, low := before[..i], before[i + 1..];
    var front, front' := high + [before[i]], high + [after[i]];
    assert before == front + low && after == front' + low;
    ValueSplit(front, low);
    ValueSplit(front', low);
    ValueAppend(high, before[i]);
    ValueAppend(high, after[i]);
    CarryArithmetic(Value(front), Value(front'), carry, up, Pow256(|low|));
  }

  /** Adds a number into a byte array in place, from the last byte up, and returns the carry. */
  method AddInPlace(bytes: array<Byte>, n: nat) returns (carry: nat)
    modifies bytes
    ensures Value(bytes[..]) + carry * Pow256(bytes.Length) == Value(old(bytes[..])) + n
  {
    carry := n;
    var i := bytes.Length;
    while i > 0 && carry > 0
      invariant 0 <= i <= bytes.Length
      invariant Value(bytes[..]) + carry * Pow256(bytes.Length - i) == Value(old(bytes[..])) + n
    {
      i := i - 1;
      ghost var before := bytes[..];
      CarryStep(before, before[i := (carry + before[i]) % 256], i, carry, (carry + before[i]) / 256);
      carry := carry + bytes[i];
      bytes[i] := carry % 256;
      assert bytes[..] == before[i := carry % 256];
      carry := carry / 256;
    }
    if carry == 0 {
      assert carry * Pow256(bytes.Length - i) == 0 == carry * Pow256(bytes.Length);
    }
  }

  function Width(a: Address): nat
  {
    if a.v4 then 4 else 16
  }

  lemma MappedSum(a: Address, out: seq<Byte>, n: nat)
    requires a.Valid() && a.v4 && |out| == 16 && Value(out) == Value(As16(a)) + n
    ensures out[..12] == MAPPED <==> Value(a.bytes) + n < Pow256(4)
    ensures out[..12] == MAPPED ==> Value(out[12..]) == Value(a.bytes) + n
  {
    ValueSplit(MAPPED, a.bytes);
    ValueSplit(out[..12], out[12..]);
    assert out == out[..12] + out[12..];
    ValueBound(out[12..]);
    if Value(a.bytes) + n < Pow256(4) {
      QuotientsAgree(Value(out[..12]), Value(out[12..]), Value(MAPPED), Value(a.bytes) + n, Pow256(4));
      ValueInjective(out[..12], MAPPED);
    }
  }

  lemma QuotientsAgree(q: nat, r: nat, q': nat, r': nat, p: nat)
    requires q * p + r == q' * p + r' && r < p && r' < p
    ensures q == q' && r == r'
  {
    assert (q' - q) * p == q' * p - q * p == -((q - q') * p);
    if q < q' {
      AtLeastOnce(q' - q, p);
    } else if q' < q {
      AtLeastOnce(q - q', p);
    }
  }

  /** The address `n` after another one in the same family, or nothing where the
      family has no such address. */
  method OffsetAddr(a: Address, n: int) returns (r: Option<Address>)
    ensures r.Some? <==> a.Valid() && n >= 0 && Value(a.bytes) + n < Pow256(Width(a))
    ensures r.Some? ==> r.value.Valid() && r.value.v4 == a.v4 && Value(r.value.bytes) == Value(a.bytes) + n
  {
    if !a.Valid() || n < 0 {
      return None;
    }
    var form := As16(a);
    var bytes := new Byte[16](i requires 0 <= i < 16 => form[i]);
    assert bytes[..] == form;
    var carry := AddInPlace(bytes, n);
    var out := bytes[..];
    if carry > 0 {
      AtLeastOnce(carry, Pow256(bytes.Length));
      MappedRoom(a, n);
      return None;
    }
    ValueBound(out);
    if a.v4 {
      MappedSum(a, out, n);
      if out[..12] != MAPPED {
        return None;
      }
      return Some(Address(true, out[12..]));
    }
    return Some(Address(false, out));
  }

  /** A sum that leaves the 16-byte form left the family too. */
  lemma MappedRoom(a: Address, n: nat)
    requires a.Valid() && Value(As16(a)) + n >= Pow256(16)
    ensures Value(a.bytes) + n >= Pow256(Width(a))
  {
    if a.v4 {
      ValueSplit(MAPPED, a.bytes);
      ValueBound(MAPPED);
      assert Value(MAPPED) * Pow256(4) + Pow256(4) <= Pow256(12) * Pow256(4);
    }
  }

  // ----- one address per id -----

  function FromValue(v: nat, n: nat): (bytes: seq<Byte>)
    requires v < Pow256(n)
    ensures |bytes| == n
  {
    if n == 0 then [] else FromValue(v / 256, n - 1) + [v % 256]
  }

  lemma {:induction false} ValueOfFromValue(v: nat, n: nat)
    requires v < Pow256(n)
    ensures Value(FromValue(v, n)) == v
  {
    if n > 0 {
      ValueOfFromValue(v / 256, n - 1);
      ValueAppend(FromValue(v / 256, n - 1), v % 256);
    }
  }

  function Pow2(n: nat): nat
    ensures Pow2(n) > 0
  {
    if n == 0 then 1 else 2 * Pow2(n - 1)
  }

  /** An address prefix gateways are carved from. */
  datatype Base = Base(addr: Address, len: int) {
    predicate Valid()
    {
      addr.Valid() && 0 <= len <= 8 * |addr.bytes|
    }

    /** How many addresses the prefix holds. */
    function Size(): nat
      requires Valid()
    {
      Pow2(8 * |addr.bytes| - len)
    }

    function Masked(): Address
      requires Valid()
    {
      ValueBound(addr.bytes);
      Address(addr.v4, FromValue(Floor(Value(addr.bytes), Size()), |addr.bytes|))
    }

    predicate Contains(a: Address)
      requires Valid()
    {
      a.Valid() && a.v4 == addr.v4 && Value(a.bytes) / Size() == Value(addr.bytes) / Size()
    }
  }

  /** The start of the block a number is in. */
  function Floor(v: nat, size: nat): (r: nat)
    requires size > 0
    ensures r <= v
  {
    v - v % size
  }

  lemma FloorIsMultiple(v: nat, size: nat)
    requires size > 0
    ensures Floor(v, size) == (v / size) * size
  {
  }

  lemma WithinBlock(v: nat, id: nat, size: nat)
    requires size > 0
    ensures (Floor(v, size) + id) / size == v / size <==> id < size
  {
    var q, sum := v / size, Floor(v, size) + id;
    FloorIsMultiple(v, size);
    assert sum == (sum / size) * size + sum % size;
    if id < size {
      QuotientsAgree(sum / size, sum % size, q, id, size);
    }
  }

  lemma {:induction false} Pow2Splits(a: nat, b: nat)
    ensures Pow2(a + b) == Pow2(a) * Pow2(b)
  {
    if a > 0 {
      Pow2Splits(a - 1, b);
      assert Pow2(a + b) == 2 * (Pow2(a - 1) * Pow2(b)) == (2 * Pow2(a - 1)) * Pow2(b);
    }
  }

  lemma Pow256IsPow2(n: nat)
    ensures Pow256(n) == Pow2(8 * n)
  {
    if n > 0 {
      Pow256IsPow2(n - 1);
      Pow2Splits(8, 8 * n - 8);
      assert Pow2(8) == 256;
    }
  }

  /** A number below a multiple of the block size has its whole block below it. */
  lemma BlockFits(v: nat, id: nat, size: nat, blocks: nat)
    requires v < blocks * size && id < size
    ensures Floor(v, size) + id < blocks * size
  {
    var q := v / size;
    FloorIsMultiple(v, size);
    assert q + 1 <= blocks by {
      assert q * size <= v;
      assert q >= blocks ==> q * size >= blocks * size;
    }
    assert (q + 1) * size <= blocks * size;
    assert (q + 1) * size == q * size + size;
  }

  lemma RoomForGateway(base: Base, id: nat)
    requires base.Valid() && id < base.Size()
    ensures Floor(Value(base.addr.bytes), base.Size()) + id < Pow256(|base.addr.bytes|)
  {
    var n := |base.addr.bytes|;
    ValueBound(base.addr.bytes);
    Pow256IsPow2(n);
    Pow2Splits(base.len, 8 * n - base.len);
    BlockFits(Value(base.addr.bytes), id, base.Size(), Pow2(base.len));
  }

  /** The gateway of an id: exactly the ids below the prefix's size have one, and
      it is the masked base plus the id. */
  method GatewayOf(base: Base, id: int) returns (r: Option<Address>)
    ensures r.Some? <==> Egress.InBand(id) && base.Valid() && id < base.Size()
    ensures r.Some? ==> base.Contains(r.value) && Value(r.value.bytes) == Value(base.Masked().bytes) + id
  {
    if !Egress.InBand(id) || !base.Valid() {
      return None;
    }
    ghost var v, size := Value(base.addr.bytes), base.Size();
    ValueBound(base.addr.bytes);
    ValueOfFromValue(Floor(v, size), |base.addr.bytes|);
    WithinBlock(v, id, size);
    if id < size {
      RoomForGateway(base, id);
    }
    var addr := OffsetAddr(base.Masked(), id);
    if addr.None? || !base.Contains(addr.value) {
      return None;
    }
    return addr;
  }

  /** A base that can hold the last id of the band can hold every id. */
  method CheckGatewayBase(base: Base) returns (ok: bool)
    ensures ok <==> base.Valid() && base.Size() > Egress.MAX_ID
  {
    var last := GatewayOf(base, Egress.MAX_ID);
    return last.Some?;
  }
}
