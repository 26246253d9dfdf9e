/** Product records as the storefront receives them, and the cart line built from one. */
module Products {
  import opened Wrappers

  /** A product as the product routes return it. Money is held in integer cents. */
  datatype Product = Product(
    productId: int,
    name: string,
    cost: int,
    description: string,
    imageFilename: string)

  /** `{ ...product, quantity }`: every field of the product, plus the quantity read from the
      quantity dictionary; None stands for `undefined`, a key the dictionary does not hold. */
  datatype CartItem = CartItem(product: Product, quantity: Option<nat>)

  function DigitChar(d: nat): char
    requires d < 10
  {
    (48 + d) as char
  }

  /** The decimal digits of n, most significant first, without leading zeros. */
  function Numeral(n: nat): (s: string)
    ensures |s| >= 1
    ensures forall i :: 0 <= i < |s| ==> '0' <= s[i] <= '9'
    ensures s[0] == '0' <==> n == 0
  {
    if n < 10 then [DigitChar(n)] else Numeral(n / 10) + [DigitChar(n % 10)]
  }

  /** The number a string of decimal digits stands for. */
  function NumeralValue(s: string): int
    decreases |s|
  {
    if s == [] then 0 else 10 * NumeralValue(s[..|s| - 1]) + (s[|s| - 1] as int - 48)
  }

  /** `String(id)`: how a numeric product id is spelled when it is used as a dictionary key:
      a minus sign for a negative id only, then decimal digits without leading zeros. */
  function IdKey(id: int): (key: string)
    ensures |key| >= 1 && ',' !in key
    ensures forall i :: 0 <= i < |key| ==> key[i] == '-' || '0' <= key[i] <= '9'
    ensures key[0] == '-' <==> id < 0
    ensures forall i :: 0 < i < |key| ==> key[i] != '-'
    ensures key[0] == '0' <==> id == 0
    ensures id == 0 ==> key == "0"
    ensures id < 0 ==> |key| >= 2 && '1' <= key[1] <= '9'
  {
    if id < 0 then "-" + Numeral(-id) else Numeral(id)
  }

  lemma {:induction false} NumeralRoundTrip(n: nat)
    ensures NumeralValue(Numeral(n)) == n
  {
    if n >= 10 {
      NumeralRoundTrip(n / 10);
      var s := Numeral(n);
      assert s[..|s| - 1] == Numeral(n / 10);
    }
  }

  /** `Number(key)` for a key spelled by IdKey: an optional minus sign, then digits. */
  function KeyValue(key: string): int
  {
    if key != [] && key[0] == '-' then -NumeralValue(key[1..]) else NumeralValue(key)
  }

  /** Reading the key back as a number gives the id again. */
  lemma IdKeyRoundTrip(id: int)
    ensures KeyValue(IdKey(id)) == id
  {
    if id < 0 {
      NumeralRoundTrip(-id);
      assert IdKey(id)[1..] == Numeral(-id);
    } else {
      NumeralRoundTrip(id);
      assert '0' <= IdKey(id)[0] <= '9';
    }
  }

  /** Distinct product ids are spelled as distinct keys. */
  lemma IdKeyInjective(a: int, b: int)
    ensures IdKey(a) == IdKey(b) <==> a == b
  {
    IdKeyRoundTrip(a);
    IdKeyRoundTrip(b);
  }
}
