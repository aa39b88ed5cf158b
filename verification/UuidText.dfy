/** UUIDs as 128-bit numbers, their canonical text, and its parser. */
module UuidText {
  import opened Prelude

  function Pow16(k: nat): (p: nat)
    ensures p > 0
  {
    if k == 0 then 1 else 16 * Pow16(k - 1)
  }

  type Uuid = n: nat | n < Pow16(32)

  function Digit(d: nat): char
    requires d < 16
  {
    "0123456789abcdef"[d]
  }

  function DigitValue(c: char): Option<nat> {
    if '0' <= c <= '9' then Some((c - '0') as nat)
    else if 'a' <= c <= 'f' then Some(10 + (c - 'a') as nat)
    else if 'A' <= c <= 'F' then Some(10 + (c - 'A') as nat)
    else None
  }

  function Hex(n: nat, k: nat): (s: string)
    ensures |s| == k
    ensures forall i :: 0 <= i < k ==> s[i] != '-' && s[i] != '/'
  {
    if k == 0 then "" else Hex(n / 16, k - 1) + [Digit(n % 16)]
  }

  function HexValue(s: string): Option<nat> {
    if s == "" then Some(0)
    else
      var high, low := HexValue(s[..|s| - 1]), DigitValue(s[|s| - 1]);
      if high.Some? && low.Some? then Some(high.value * 16 + low.value) else None
  }

  lemma DigitRoundTrip(d: nat)
    requires d < 16
    ensures DigitValue(Digit(d)) == Some(d)
  {}

  lemma {:induction false} HexRoundTrip(n: nat, k: nat)
    requires n < Pow16(k)
    ensures HexValue(Hex(n, k)) == Some(n)
  {
    if k > 0 {
      var high, low := n / 16, n % 16;
      assert n == high * 16 + low && high < Pow16(k - 1);
      HexRoundTrip(high, k - 1);
      DigitRoundTrip(low);
      var s := Hex(n, k);
      assert s[..|s| - 1] == Hex(high, k - 1) && s[|s| - 1] == Digit(low);
    }
  }

  /** Groups of 8, 4, 4, 4 and 12 digits. */
  function Grouped(h: string): (s: string)
    requires |h| == 32
    ensures |s| == 36
  {
    h[..8] + "-" + h[8..12] + "-" + h[12..16] + "-" + h[16..20] + "-" + h[20..]
  }

  function Ungrouped(s: string): Option<string> {
    if |s| != 36 || s[8] != '-' || s[13] != '-' || s[18] != '-' || s[23] != '-' then None
    else Some(s[..8] + s[9..13] + s[14..18] + s[19..23] + s[24..])
  }

  lemma UngroupedGrouped(h: string)
    requires |h| == 32
    ensures Ungrouped(Grouped(h)) == Some(h)
  {
    var s := Grouped(h);
    assert s[..8] == h[..8];
    assert s[9..13] == h[8..12];
    assert s[14..18] == h[12..16];
    assert s[19..23] == h[16..20];
    assert s[24..] == h[20..];
    assert h[..8] + h[8..12] + h[12..16] + h[16..20] + h[20..] == h;
  }

  /** UUID.String(). */
  function ToText(id: Uuid): (s: string)
    ensures |s| == 36 && '/' !in s
  {
    var s := Grouped(Hex(id, 32));
    assert forall i :: 0 <= i < |s| ==> s[i] != '/';
    s
  }

  /** uuid.Parse on the canonical form. */
  function Parse(s: string): Option<Uuid> {
    var digits := Ungrouped(s);
    if digits.None? then None
    else
      var n := HexValue(digits.value);
      if n.Some? && n.value < Pow16(32) then Some(n.value) else None
  }

  /** Parsing recovers every UUID from its text. */
  lemma ParseInvertsText(id: Uuid)
    ensures Parse(ToText(id)) == Some(id)
  {
    UngroupedGrouped(Hex(id, 32));
    HexRoundTrip(id, 32);
  }
}
