/** Keys as UTF-16 code units, and those units as big-endian bytes. */
module CodeUnits {
  import opened Ordering

  /** One unit for a character of the basic plane, a surrogate pair for any other. */
  function UnitsOf(c: char): (u: Key)
    ensures 1 <= |u| <= 2 && forall x | x in u :: x < 0x1_0000
  {
    var n := c as int;
    if n < 0x1_0000 then [n] else [0xD800 + (n - 0x1_0000) / 0x400, 0xDC00 + (n - 0x1_0000) % 0x400]
  }

  /** A pair of a high and a low surrogate stands for one character beyond the basic plane. */
  lemma PairsStandForCharacters(c: char)
    ensures var u := UnitsOf(c);
      if |u| == 1 then u[0] == c as int && !(0xD800 <= u[0] < 0xE000)
      else 0xD800 <= u[0] < 0xDC00 <= u[1] < 0xE000 && c as int == 0x1_0000 + (u[0] - 0xD800) * 0x400 + (u[1] - 0xDC00)
  {
  }

  function Units(s: string): (u: Key)
    ensures forall x | x in u :: x < 0x1_0000
  {
    if s == "" then [] else UnitsOf(s[0]) + Units(s[1..])
  }

  function Bytes(units: Key): Key {
    if units == [] then [] else [units[0] / 256, units[0] % 256] + Bytes(units[1..])
  }

  /** The key that the source sorts by: `key.encode("utf-16-be")`. */
  function Utf16Bytes(s: string): Key { Bytes(Units(s)) }

  /** Comparing the bytes is comparing the code units, as section 3.2.3 of RFC 8785 asks. */
  lemma {:induction false} BytesCompareAsUnits(a: Key, b: Key)
    requires (forall x | x in a :: x < 0x1_0000) && (forall x | x in b :: x < 0x1_0000)
    ensures AtMost(Bytes(a), Bytes(b)) <==> AtMost(a, b)
  {
    if a != [] && b != [] {
      assert forall x | x in a[1..] :: x in a;
      assert forall x | x in b[1..] :: x in b;
      BytesCompareAsUnits(a[1..], b[1..]);
      assert a[0] in a && b[0] in b;
      PairsCompareAsUnits(a[0], b[0], Bytes(a[1..]), Bytes(b[1..]));
    }
  }

  lemma PairsCompareAsUnits(x: nat, y: nat, a: Key, b: Key)
    requires x < 0x1_0000 && y < 0x1_0000
    ensures AtMost([x / 256, x % 256] + a, [y / 256, y % 256] + b) <==> x < y || (x == y && AtMost(a, b))
  {
    assert ([x / 256, x % 256] + a)[1..] == [x % 256] + a && ([y / 256, y % 256] + b)[1..] == [y % 256] + b;
    assert ([x % 256] + a)[1..] == a && ([y % 256] + b)[1..] == b;
  }

  lemma UnitsTellCharacters(c: char, d: char, a: Key, b: Key)
    requires UnitsOf(c) + a == UnitsOf(d) + b
    ensures c == d && a == b
  {
    assert (UnitsOf(c) + a)[0] == UnitsOf(c)[0] && (UnitsOf(d) + b)[0] == UnitsOf(d)[0];
    assert |UnitsOf(c)| == |UnitsOf(d)|;
    assert (UnitsOf(c) + a)[|UnitsOf(c)|..] == a && (UnitsOf(d) + b)[|UnitsOf(d)|..] == b;
    assert (UnitsOf(c) + a)[..|UnitsOf(c)|] == UnitsOf(c) && (UnitsOf(d) + b)[..|UnitsOf(d)|] == UnitsOf(d);
  }

  lemma {:induction false} UnitsInjective(a: string, b: string)
    requires Units(a) == Units(b)
    ensures a == b
  {
    if a != "" && b != "" {
      UnitsTellCharacters(a[0], b[0], Units(a[1..]), Units(b[1..]));
      UnitsInjective(a[1..], b[1..]);
      assert a == [a[0]] + a[1..] && b == [b[0]] + b[1..];
    }
  }

  /** Different keys never compare as equal. */
  lemma KeysAreDistinct(a: string, b: string)
    requires Utf16Bytes(a) == Utf16Bytes(b)
    ensures a == b
  {
    AtMostTotal(Utf16Bytes(a), Utf16Bytes(b));
    BytesCompareAsUnits(Units(a), Units(b));
    BytesCompareAsUnits(Units(b), Units(a));
    AtMostTotal(Units(a), Units(b));
    UnitsInjective(a, b);
  }
}
