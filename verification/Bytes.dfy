/** Numbers in bytes, lowest byte first. */
module Bytes {
  type Byte = x: int | 0 <= x < 256

  function U16(data: seq<Byte>, i: nat): nat
    requires i + 2 <= |data|
  {
    data[i] as int + 256 * data[i + 1] as int
  }

  function U32(data: seq<Byte>, i: nat): nat
    requires i + 4 <= |data|
  {
    data[i] as int + 256 * data[i + 1] as int + 65_536 * data[i + 2] as int + 16_777_216 * data[i + 3] as int
  }

  function U64(data: seq<Byte>, i: nat): nat
    requires i + 8 <= |data|
  {
    U32(data, i) + 4_294_967_296 * U32(data, i + 4)
  }

  function Bytes16(n: nat): (b: seq<Byte>)
    requires n < 65_536
    ensures |b| == 2
  {
    [n % 256, n / 256]
  }

  function Bytes32(n: nat): (b: seq<Byte>)
    requires n < 4_294_967_296
    ensures |b| == 4
  {
    [n % 256, n / 256 % 256, n / 65_536 % 256, n / 16_777_216]
  }

  function Bytes64(n: nat): (b: seq<Byte>)
    requires n < 0x1_0000_0000_0000_0000
    ensures |b| == 8
  {
    Bytes32(n % 4_294_967_296) + Bytes32(n / 4_294_967_296)
  }

  function Zeros(n: nat): (z: seq<Byte>)
    ensures |z| == n && forall i | 0 <= i < n :: z[i] == 0
  {
    seq(n, i => 0)
  }

  lemma Number32(front: seq<Byte>, n: nat, rest: seq<Byte>)
    requires n < 4_294_967_296
    ensures U32(front + (Bytes32(n) + rest), |front|) == n
  {
    var data, b := front + (Bytes32(n) + rest), Bytes32(n);
    assert data[|front|] == b[0] && data[|front| + 1] == b[1] && data[|front| + 2] == b[2] && data[|front| + 3] == b[3];
    assert n / 65_536 == n / 256 / 256 && n / 16_777_216 == n / 256 / 256 / 256;
  }

  lemma Number64(front: seq<Byte>, n: nat, rest: seq<Byte>)
    requires n < 0x1_0000_0000_0000_0000
    ensures U64(front + (Bytes64(n) + rest), |front|) == n
  {
    var low, high := Bytes32(n % 4_294_967_296), Bytes32(n / 4_294_967_296);
    var data := front + (Bytes64(n) + rest);
    assert data == front + (low + (high + rest));
    Number32(front, n % 4_294_967_296, high + rest);
    assert data == (front + low) + (high + rest);
    Number32(front + low, n / 4_294_967_296, rest);
  }
}
