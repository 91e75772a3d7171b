// Row ids: 128-bit numbers, ordered as PostgreSQL orders uuid, and their canonical text.

module UuidText {
  import opened Prelude

  type Uuid = i: nat | i < 0x1_0000_0000_0000_0000_0000_0000_0000_0000

  const DIGITS: string := "0123456789abcdef"

  predicate IsIdChar(c: char) {
    '0' <= c <= '9' || 'a' <= c <= 'f' || 'A' <= c <= 'F' || c == '-'
  }

  // The guard /^[0-9a-f-]{36}$/i
  predicate IdShape(s: string) {
    |s| == 36 && forall i :: 0 <= i < |s| ==> IsIdChar(s[i])
  }

  function Power(w: nat): nat {
    if w == 0 then 1 else 16 * Power(w - 1)
  }

  function Hex(n: nat, w: nat): (s: string)
    ensures |s| == w && forall i :: 0 <= i < w ==> s[i] in DIGITS
  {
    if w == 0 then "" else Hex(n / 16, w - 1) + [DIGITS[n % 16]]
  }

  function DigitValue(c: char): (d: nat)
    ensures d < 16
  {
    if '0' <= c <= '9' then (c - '0') as nat
    else if 'a' <= c <= 'f' then (c - 'a') as nat + 10
    else 0
  }

  function HexValue(s: string): (n: nat)
    ensures n < Power(|s|)
  {
    if s == "" then 0 else 16 * HexValue(s[..|s| - 1]) + DigitValue(s[|s| - 1])
  }

  lemma {:induction false} HexRoundTrip(n: nat, w: nat)
    requires n < Power(w)
    ensures HexValue(Hex(n, w)) == n
  {
    if w > 0 {
      HexRoundTrip(n / 16, w - 1);
      assert Hex(n, w)[..w - 1] == Hex(n / 16, w - 1);
      DigitRoundTrip(n % 16);
    }
  }

  lemma DigitRoundTrip(d: nat)
    requires d < 16
    ensures DigitValue(DIGITS[d]) == d
  {
  }

  lemma {:induction false} PowerAdds(a: nat, b: nat)
    ensures Power(a + b) == Power(a) * Power(b)
  {
    if a > 0 {
      PowerAdds(a - 1, b);
      assert 16 * (Power(a - 1) * Power(b)) == 16 * Power(a - 1) * Power(b);
    }
  }

  lemma UuidFits()
    ensures Power(32) == 0x1_0000_0000_0000_0000_0000_0000_0000_0000
  {
    assert Power(4) == 0x1_0000;
    PowerAdds(4, 4);
    PowerAdds(8, 8);
    PowerAdds(16, 16);
  }

  function Grouped(h: string): (s: string)
    requires |h| == 32
    ensures |s| == 36
  {
    h[..8] + "-" + h[8..12] + "-" + h[12..16] + "-" + h[16..20] + "-" + h[20..]
  }

  function Ungrouped(s: string): (h: string)
    requires |s| == 36
    ensures |h| == 32
  {
    s[..8] + s[9..13] + s[14..18] + s[19..23] + s[24..]
  }

  function Show(i: Uuid): string {
    Grouped(Hex(i, 32))
  }

  function Read(s: string): Option<Uuid> {
    if |s| != 36 then None
    else
      UuidFits();
      Some(HexValue(Ungrouped(s)))
  }

  lemma GroupsRead(h: string)
    requires |h| == 32
    ensures Ungrouped(Grouped(h)) == h
  {
    var s := Grouped(h);
    assert s[..8] == h[..8] && s[9..13] == h[8..12] && s[14..18] == h[12..16] && s[19..23] == h[16..20] && s[24..] == h[20..];
  }

  lemma GroupsShape(h: string)
    requires |h| == 32 && forall k :: 0 <= k < 32 ==> IsIdChar(h[k])
    ensures IdShape(Grouped(h))
  {
    assert IsIdChar('-');
    hide IsIdChar;
  }

  // The text of an id passes the guard and reads back as the id.
  lemma ShowReads(i: Uuid)
    ensures IdShape(Show(i)) && Read(Show(i)) == Some(i)
  {
    var h := Hex(i, 32);
    forall k | 0 <= k < 32 ensures IsIdChar(h[k]) {
      assert h[k] in DIGITS;
    }
    UuidFits();
    HexRoundTrip(i, 32);
    hide Hex, HexValue, Power, IsIdChar, IdShape, Grouped, Ungrouped;
    GroupsShape(h);
    GroupsRead(h);
  }
}
