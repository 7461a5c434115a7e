/**
  The text of a generated anchor: `id` and the number with at least three digits
  (dumper.c, yaml_emitter_generate_anchor). Different numbers have different texts.
 */
module AnchorText {

  function Digit(d: nat): char
    requires d < 10
  {
    '0' + d as char
  }

  /** The decimal digits, at least `width` of them. */
  function Decimal(n: nat, width: nat): string
    decreases n, width
  {
    if n == 0 && width == 0 then ""
    else Decimal(n / 10, if width > 0 then width - 1 else 0) + [Digit(n % 10)]
  }

  function AnchorName(id: nat): string {
    "id" + Decimal(id, 3)
  }

  /** Reads decimal digits back. */
  function Value(text: string): nat
    requires forall k :: 0 <= k < |text| ==> '0' <= text[k] <= '9'
  {
    if text == "" then 0
    else Value(text[..|text| - 1]) * 10 + (text[|text| - 1] - '0') as nat
  }

  lemma {:induction false} ValueOfDecimal(n: nat, width: nat)
    ensures var text := Decimal(n, width);
      (forall k :: 0 <= k < |text| ==> '0' <= text[k] <= '9') && Value(text) == n
    decreases n, width
  {
    if n > 0 || width > 0 {
      var width' := if width > 0 then width - 1 else 0;
      ValueOfDecimal(n / 10, width');
      var text := Decimal(n, width);
      assert text[..|text| - 1] == Decimal(n / 10, width');
    }
  }

  lemma AnchorNamesDiffer(a: nat, b: nat)
    requires a != b
    ensures AnchorName(a) != AnchorName(b)
  {
    ValueOfDecimal(a, 3);
    ValueOfDecimal(b, 3);
    assert AnchorName(a)[2..] == Decimal(a, 3) && AnchorName(b)[2..] == Decimal(b, 3);
  }
}
