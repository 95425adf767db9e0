/** The `github.com/google/uuid` value type and its canonical textual form. */
module Uuids {
  import opened GoStrings

  /** A UUID is 16 bytes; uuid.FromBytes on a 16-byte slice never fails and keeps the bytes. */
  type Uuid = s: seq<byte> | |s| == 16 witness [0, 0, 0, 0, 0, 0, 0, 0, 0, 0, 0, 0, 0, 0, 0, 0]

  /** uuid.Nil */
  const Nil: Uuid := [0, 0, 0, 0, 0, 0, 0, 0, 0, 0, 0, 0, 0, 0, 0, 0]

  function HexDigit(n: nat): char
    requires n < 16
  {
    "0123456789abcdef"[n]
  }

  /** Lower-case hexadecimal, two digits per byte. */
  function Hex(bs: seq<byte>): (r: string)
    ensures |r| == 2 * |bs|
  {
    if bs == [] then [] else [HexDigit(bs[0] / 16), HexDigit(bs[0] % 16)] + Hex(bs[1..])
  }

  /** UUID.String(), which `%v` prints: 8-4-4-4-12 hexadecimal digits. */
  function Format(u: Uuid): (r: string)
    ensures |r| == 36
  {
    Hex(u[..4]) + "-" + Hex(u[4..6]) + "-" + Hex(u[6..8]) + "-" + Hex(u[8..10]) + "-" + Hex(u[10..])
  }

  lemma {:induction false} HexAppend(a: seq<byte>, b: seq<byte>)
    ensures Hex(a + b) == Hex(a) + Hex(b)
  {
    if a == [] {
      assert a + b == b;
    } else {
      assert (a + b)[0] == a[0] && (a + b)[1..] == a[1..] + b;
      HexAppend(a[1..], b);
    }
  }

  /** Two zero bytes print as four zero digits. */
  lemma HexZeroPair()
    ensures Hex([0, 0]) == "0000"
  {
    assert [0, 0][1..] == [0];
    assert Hex([0]) == "00";
  }

  lemma HexNilParts()
    ensures Hex(Nil[..4]) == "00000000" && Hex(Nil[10..]) == "000000000000"
    ensures Hex(Nil[4..6]) == Hex(Nil[6..8]) == Hex(Nil[8..10]) == "0000"
  {
    var z: seq<byte> := [0, 0];
    HexZeroPair();
    assert Nil[..4] == z + z;
    HexAppend(z, z);
    assert Nil[10..] == (z + z) + z;
    HexAppend(z + z, z);
    assert Nil[4..6] == z && Nil[6..8] == z && Nil[8..10] == z;
  }

  /** The placeholder the materializer writes is the text of uuid.Nil. */
  lemma FormatNil()
    ensures Format(Nil) == "00000000-0000-0000-0000-000000000000"
  {
    HexNilParts();
    assert Format(Nil) == "00000000" + "-" + "0000" + "-" + "0000" + "-" + "0000" + "-" + "000000000000";
  }

  /** Equal concatenations whose last parts have equal lengths agree part by part. */
  lemma SplitConcat(a1: string, a2: string, b1: string, b2: string)
    requires |a2| == |b2| && a1 + a2 == b1 + b2
    ensures a1 == b1 && a2 == b2
  {
    assert a1 == (a1 + a2)[..|a1|];
    assert b1 == (b1 + b2)[..|b1|];
    assert a2 == (a1 + a2)[|a1|..];
    assert b2 == (b1 + b2)[|b1|..];
  }

  lemma {:induction false} HexInjective(a: seq<byte>, b: seq<byte>)
    requires |a| == |b| && Hex(a) == Hex(b)
    ensures a == b
  {
    if a != [] {
      var ha, hb := Hex(a), Hex(b);
      assert ha[0] == hb[0] && ha[1] == hb[1];
      assert a[0] / 16 == b[0] / 16 && a[0] % 16 == b[0] % 16;
      SplitConcat([HexDigit(a[0] / 16), HexDigit(a[0] % 16)], Hex(a[1..]),
                  [HexDigit(b[0] / 16), HexDigit(b[0] % 16)], Hex(b[1..]));
      HexInjective(a[1..], b[1..]);
    }
  }

  /** Distinct UUIDs have distinct texts, so a uid annotation names exactly one UUID. */
  lemma FormatInjective(u: Uuid, v: Uuid)
    requires Format(u) == Format(v)
    ensures u == v
  {
    var x1 := Hex(u[..4]) + "-" + Hex(u[4..6]) + "-" + Hex(u[6..8]) + "-" + Hex(u[8..10]) + "-";
    var y1 := Hex(v[..4]) + "-" + Hex(v[4..6]) + "-" + Hex(v[6..8]) + "-" + Hex(v[8..10]) + "-";
    SplitConcat(x1, Hex(u[10..]), y1, Hex(v[10..]));
    var x2 := Hex(u[..4]) + "-" + Hex(u[4..6]) + "-" + Hex(u[6..8]) + "-";
    var y2 := Hex(v[..4]) + "-" + Hex(v[4..6]) + "-" + Hex(v[6..8]) + "-";
    SplitConcat(x2 + Hex(u[8..10]), "-", y2 + Hex(v[8..10]), "-");
    SplitConcat(x2, Hex(u[8..10]), y2, Hex(v[8..10]));
    var x3 := Hex(u[..4]) + "-" + Hex(u[4..6]) + "-";
    var y3 := Hex(v[..4]) + "-" + Hex(v[4..6]) + "-";
    SplitConcat(x3 + Hex(u[6..8]), "-", y3 + Hex(v[6..8]), "-");
    SplitConcat(x3, Hex(u[6..8]), y3, Hex(v[6..8]));
    var x4 := Hex(u[..4]) + "-";
    var y4 := Hex(v[..4]) + "-";
    SplitConcat(x4 + Hex(u[4..6]), "-", y4 + Hex(v[4..6]), "-");
    SplitConcat(x4, Hex(u[4..6]), y4, Hex(v[4..6]));
    SplitConcat(Hex(u[..4]), "-", Hex(v[..4]), "-");
    HexInjective(u[..4], v[..4]);
    HexInjective(u[4..6], v[4..6]);
    HexInjective(u[6..8], v[6..8]);
    HexInjective(u[8..10], v[8..10]);
    HexInjective(u[10..], v[10..]);
    assert u == u[..4] + u[4..6] + u[6..8] + u[8..10] + u[10..];
    assert v == v[..4] + v[4..6] + v[6..8] + v[8..10] + v[10..];
  }
}
