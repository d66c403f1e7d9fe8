/** Run and command identifiers: 128 bits as 32 hexadecimal digits, and their
  * textual form (section 4 of RFC 9562): five groups joined by dashes.
  */
module Uuids {
  import opened Wrappers

  type Uuid = u: seq<nat> | |u| == 32 && forall i :: 0 <= i < |u| ==> u[i] < 16
    witness seq(32, _ => 0)

  /** The all-zero identifier, which no command has. */
  predicate IsNil(u: Uuid) {
    forall i :: 0 <= i < |u| ==> u[i] == 0
  }

  const DIGITS := "0123456789abcdef"

  /** Positions of the four dashes in the textual form. */
  predicate IsDash(i: nat) {
    i == 8 || i == 13 || i == 18 || i == 23
  }

  /** Position in the text of digit number `d`. */
  function TextPosition(d: nat): nat {
    if d < 8 then d else if d < 12 then d + 1 else if d < 16 then d + 2
    else if d < 20 then d + 3 else d + 4
  }

  /** The digit written at text position `i`, the inverse of `TextPosition`. */
  function DigitAt(i: nat): nat {
    if i < 9 then i else if i < 14 then i - 1 else if i < 19 then i - 2
    else if i < 24 then i - 3 else i - 4
  }

  function Format(u: Uuid): (text: string)
    ensures |text| == 36
  {
    seq(36, i requires 0 <= i < 36 =>
      if IsDash(i) then '-' else DIGITS[u[DigitAt(i)]])
  }

  /** The digits without dashes. */
  function Digits(u: Uuid): (text: string)
    ensures |text| == 32
  {
    seq(32, i requires 0 <= i < 32 => DIGITS[u[i]])
  }

  /** The first ten digits of the text, without its dash. */
  function ShortForm(u: Uuid): (text: string)
    ensures |text| == 10
  {
    Format(u)[..8] + Format(u)[9..11]
  }

  /** The value of a hexadecimal digit of either case. */
  function HexValue(c: char): (value: Option<nat>)
    ensures value.Some? ==> value.value < 16
  {
    if '0' <= c <= '9' then Some(c as nat - '0' as nat)
    else if 'a' <= c <= 'f' then Some(c as nat - 'a' as nat + 10)
    else if 'A' <= c <= 'F' then Some(c as nat - 'A' as nat + 10)
    else None
  }

  predicate WellFormed(text: string) {
    && |text| == 36
    && (forall i :: 0 <= i < 36 && IsDash(i) ==> text[i] == '-')
    && (forall i :: 0 <= i < 36 && !IsDash(i) ==> HexValue(text[i]).Some?)
  }

  /** The identifier a text of five groups spells. */
  function ParseGroups(text: string): (id: Option<Uuid>)
    ensures id.Some? <==> WellFormed(text)
  {
    if WellFormed(text) then
      Some(seq(32, d requires 0 <= d < 32 => HexValue(text[TextPosition(d)]).value))
    else
      None
  }

  predicate AllHex(text: string) {
    forall i :: 0 <= i < |text| ==> HexValue(text[i]).Some?
  }

  /** The digits alone, without dashes. */
  function ParseDigits(text: string): (id: Option<Uuid>)
    requires |text| == 32
    ensures id.Some? <==> AllHex(text)
  {
    if AllHex(text) then Some(seq(32, d requires 0 <= d < 32 => HexValue(text[d]).value)) else None
  }

  const URN := "urn:uuid:"

  function LowerLetter(c: char): char {
    if 'A' <= c <= 'Z' then c - 'A' + 'a' else c
  }

  predicate SameLetters(a: string, b: string) {
    |a| == |b| && forall i :: 0 <= i < |a| ==> LowerLetter(a[i]) == LowerLetter(b[i])
  }

  /** Four forms are read: five groups; the same after the URN prefix of either case; the
    * same between any two characters, meant to be braces; and the digits alone.
    */
  function Parse(text: string): (id: Option<Uuid>) {
    if |text| == 45 && SameLetters(text[..9], URN) then ParseGroups(text[9..])
    else if |text| == 38 then ParseGroups(text[1..37])
    else if |text| == 32 then ParseDigits(text)
    else ParseGroups(text)
  }

  /** The short form is the first ten digits. */
  lemma ShortDigits(u: Uuid)
    ensures forall i :: 0 <= i < 10 ==> HexValue(ShortForm(u)[i]) == Some(u[i])
  {
    forall n: nat | n < 16 ensures HexValue(DIGITS[n]) == Some(n) { }
    var text := Format(u);
    forall i | 0 <= i < 10 ensures ShortForm(u)[i] == DIGITS[u[i]] {
      assert ShortForm(u)[i] == if i < 8 then text[i] else text[i + 1];
    }
  }

  lemma GroupsFormat(u: Uuid)
    ensures ParseGroups(Format(u)) == Some(u)
  {
    var text := Format(u);
    forall n: nat | n < 16 ensures HexValue(DIGITS[n]) == Some(n) { }
    forall i | 0 <= i < 36 && !IsDash(i)
      ensures text[i] == DIGITS[u[DigitAt(i)]] && HexValue(text[i]) == Some(u[DigitAt(i)])
    { }
    var id := ParseGroups(text);
    assert forall d :: 0 <= d < 32 ==> DigitAt(TextPosition(d)) == d;
    assert id.value == u;
  }

  lemma DigitsFormat(u: Uuid)
    ensures ParseDigits(Digits(u)) == Some(u)
  {
    forall n: nat | n < 16 ensures HexValue(DIGITS[n]) == Some(n) { }
    var text := Digits(u);
    forall i | 0 <= i < 32 ensures HexValue(text[i]) == Some(u[i]) { }
    assert ParseDigits(text).value == u;
  }

  /** A formatted identifier parses back to itself, in every form that is read. */
  lemma ParseFormat(u: Uuid)
    ensures Parse(Format(u)) == Some(u)
    ensures Parse(URN + Format(u)) == Some(u)
    ensures Parse("{" + Format(u) + "}") == Some(u)
    ensures Parse(Digits(u)) == Some(u)
  {
    GroupsFormat(u);
    DigitsFormat(u);
    var text := Format(u);
    assert (URN + text)[9..] == text && (URN + text)[..9] == URN;
    assert ("{" + text + "}")[1..37] == text;
  }
}
