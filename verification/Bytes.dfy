/** Big-endian integers in byte buffers, and reads that may run off the end. */
module Bytes {
  type byte = x: int | 0 <= x < 256
  type Buffer = seq<byte>

  /** What a decoder does: return a value, return an error, or read outside its
      buffer, which in Go is a run-time panic. */
  datatype Result<+T> = Ok(value: T) | Error | Panic {
    predicate IsFailure() { !Ok? }

    function PropagateFailure<U>(): Result<U>
      requires IsFailure()
    {
      if Error? then Result<U>.Error else Result<U>.Panic
    }

    function Extract(): T
      requires Ok?
    {
      value
    }
  }

  function Pow256(k: nat): nat { if k == 0 then 1 else 256 * Pow256(k - 1) }

  function BigEndian(b: Buffer): nat {
    if b == [] then 0 else 256 * BigEndian(b[..|b| - 1]) + b[|b| - 1]
  }

  function Uint(n: nat, width: nat): (b: Buffer)
    ensures |b| == width
  {
    if width == 0 then [] else Uint(n / 256, width - 1) + [n % 256]
  }

  /** The most significant byte comes first. */
  lemma {:induction false} HighByteFirst(b: byte, rest: Buffer)
    ensures BigEndian([b] + rest) == b * Pow256(|rest|) + BigEndian(rest)
    decreases |rest|
  {
    var whole := [b] + rest;
    if rest == [] {
      assert whole == [b] && whole[..0] == [];
      assert BigEndian([]) == 0 && Pow256(0) == 1;
    } else {
      var n := |rest| - 1;
      assert whole[..n + 1] == [b] + rest[..n];
      HighByteFirst(b, rest[..n]);
    }
  }

  lemma {:induction false} BigEndianUint(n: nat, width: nat)
    requires n < Pow256(width)
    ensures BigEndian(Uint(n, width)) == n
  {
    if width > 0 {
      BigEndianUint(n / 256, width - 1);
      assert Uint(n, width)[..width - 1] == Uint(n / 256, width - 1);
    }
  }

  lemma Widths()
    ensures Pow256(1) == 0x100 && Pow256(2) == 0x1_0000
    ensures Pow256(4) == 0x1_0000_0000 && Pow256(8) == 0x1_0000_0000_0000_0000
  {
    assert Pow256(4) == 256 * (256 * (256 * (256 * Pow256(0))));
    assert Pow256(8) == 256 * (256 * (256 * (256 * Pow256(4))));
  }

  function Read(data: Buffer, at: nat, width: nat): Result<nat> {
    if at + width <= |data| then Ok(BigEndian(data[at..at + width])) else Panic
  }

  function ReadByte(data: Buffer, at: nat): Result<byte> {
    if at < |data| then Ok(data[at]) else Panic
  }

  /** part lies in data at position at. */
  ghost predicate Holds(data: Buffer, at: nat, part: Buffer) {
    at + |part| <= |data| && data[at..at + |part|] == part
  }

  lemma HoldsBoth(data: Buffer, at: nat, a: Buffer, b: Buffer)
    requires Holds(data, at, a + b)
    ensures Holds(data, at, a) && Holds(data, at + |a|, b)
  {
    assert data[at..at + |a|] == (a + b)[..|a|];
    assert data[at + |a|..at + |a| + |b|] == (a + b)[|a|..];
  }

  lemma ReadUint(data: Buffer, at: nat, n: nat, width: nat)
    requires n < Pow256(width) && Holds(data, at, Uint(n, width))
    ensures Read(data, at, width) == Ok(n)
  {
    BigEndianUint(n, width);
  }

  /** The int64 in which microseconds are added wraps. */
  function Wrap64(x: int): int { (x + 0x8000_0000_0000_0000) % 0x1_0000_0000_0000_0000 - 0x8000_0000_0000_0000 }

  const Y2K_MICROS := 946_684_800_000_000

  /** pgTimeToTime: microseconds since 2000-01-01 as Unix microseconds. */
  function PgTime(raw: nat): int { Wrap64(Y2K_MICROS + Wrap64(raw)) }

  /** Day 0 of PostgreSQL is 30 years of 365 days and 7 leap days after 1970-01-01, and a
      time is that day plus the microseconds sent, read as a signed number. */
  lemma PgTimeIs(raw: nat)
    requires raw < 0x1_0000_0000_0000_0000
    ensures var y2k := (30 * 365 + 7) * 86_400 * 1_000_000;
            var sent := if raw < 0x8000_0000_0000_0000 then raw else raw - 0x1_0000_0000_0000_0000;
            && PgTime(0) == y2k
            && (y2k + sent < 0x8000_0000_0000_0000 ==> PgTime(raw) == y2k + sent)
            && (y2k + sent >= 0x8000_0000_0000_0000 ==> PgTime(raw) == y2k + sent - 0x1_0000_0000_0000_0000)
  {
  }

  /** The eight bytes PostgreSQL sends for a Unix time. */
  function RawTime(unixMicros: int): nat { (unixMicros - Y2K_MICROS) % 0x1_0000_0000_0000_0000 }

  lemma PgTimeRoundTrip(t: int)
    requires -0x8000_0000_0000_0000 <= t < 0x8000_0000_0000_0000
    ensures RawTime(t) < Pow256(8) && PgTime(RawTime(t)) == t
  {
    Widths();
  }
}
