/**
 * One share (`Akcja`): an immutable symbol and name, and a price that moves
 * by a random walk of at most 3% per step with a hard floor of 0.01.
 *
 * The draw of `Random.nextDouble()` is a parameter `u` with 0 <= u < 1;
 * the percentage change is then `u * 6 - 3`, which lies in [-3, 3).
 */
module Shares {
  import opened JavaInt

  /** The lowest price a share can take after an update. */
  const FLOOR: real := 0.01

  /** The percentage change drawn from `u`. */
  function ChangePercent(u: real): (r: real) {
    u * 6.0 - 3.0
  }

  /** The price after one step of the walk, before it is clamped. */
  function Walk(cena: real, u: real): (r: real) {
    cena + cena * (ChangePercent(u) / 100.0)
  }

  /** The price after one update: the walked price, or the floor if it falls below. */
  function NextPrice(cena: real, u: real): (r: real)
    ensures FLOOR <= r
  {
    var c := Walk(cena, u);
    if c < FLOOR then FLOOR else c
  }

  /** For a positive price the walk stays within [97%, 103%) of it. */
  lemma WalkWindow(cena: real, u: real)
    requires 0.0 <= u < 1.0
    requires 0.0 < cena
    ensures 0.97 * cena <= Walk(cena, u) < 1.03 * cena
  {
    var d := cena * u;
    assert Walk(cena, u) == 0.97 * cena + 0.06 * d;
    ProductSign(cena, u);
    ProductSign(cena, 1.0 - u);
    assert cena * (1.0 - u) == cena - d;
  }

  /**
   * For a non-negative price and a draw in [0, 1) the update either clamps to
   * the floor or stays within [97%, 103%) of the old price, and a price far
   * enough above the floor is never clamped.
   */
  lemma NextPriceWindow(cena: real, u: real)
    requires 0.0 <= u < 1.0
    requires 0.0 <= cena
    ensures NextPrice(cena, u) == FLOOR || 0.97 * cena <= NextPrice(cena, u) < 1.03 * cena
    ensures FLOOR <= 0.97 * cena ==> 0.97 * cena <= NextPrice(cena, u) < 1.03 * cena
    ensures NextPrice(cena, u) == FLOOR <==> Walk(cena, u) <= FLOOR
  {
    if cena == 0.0 {
      assert Walk(cena, u) == 0.0;
    } else {
      WalkWindow(cena, u);
    }
  }

  lemma ProductSign(x: real, y: real)
    requires 0.0 <= x && 0.0 <= y
    ensures 0.0 <= x * y
    ensures 0.0 < x && 0.0 < y ==> 0.0 < x * y
  {
  }

  /** The price after applying the draws one after the other. */
  function PriceAfter(cena: real, draws: seq<real>): (r: real)
    decreases |draws|
  {
    if draws == [] then cena else PriceAfter(NextPrice(cena, draws[0]), draws[1..])
  }

  /** One more update appends one more draw. */
  lemma {:induction false} PriceAfterStep(cena: real, draws: seq<real>, u: real)
    ensures PriceAfter(cena, draws + [u]) == NextPrice(PriceAfter(cena, draws), u)
    decreases |draws|
  {
    if draws == [] {
      assert [u][1..] == [];
    } else {
      assert (draws + [u])[1..] == draws[1..] + [u];
      PriceAfterStep(NextPrice(cena, draws[0]), draws[1..], u);
    }
  }

  /** After one or more updates (or from a price already at the floor) the price is at least the floor. */
  lemma {:induction false} PriceAfterAtLeastFloor(cena: real, draws: seq<real>)
    requires draws != [] || FLOOR <= cena
    ensures FLOOR <= PriceAfter(cena, draws)
    decreases |draws|
  {
    if draws != [] {
      PriceAfterAtLeastFloor(NextPrice(cena, draws[0]), draws[1..]);
    }
  }

  class Akcja {
    const symbol: string
    const nazwa: string
    var cena: real

    constructor (symbol: string, nazwa: string, cena: real)
      ensures PobierzSymbol() == symbol && PobierzNazwe() == nazwa && PobierzCene() == cena
    {
      this.symbol := symbol;
      this.nazwa := nazwa;
      this.cena := cena;
    }

    /** The symbol given at construction; it never changes. */
    function PobierzSymbol(): (r: string)
      ensures r == symbol
    {
      symbol
    }

    /** The name given at construction; it never changes. */
    function PobierzNazwe(): (r: string)
      ensures r == nazwa
    {
      nazwa
    }

    /** The current price, as the constructor or the last update left it. */
    function PobierzCene(): (r: real)
      reads this
      ensures r == cena
    {
      cena
    }

    /** One step of the price walk; symbol and name are constants and stay as they are. */
    method AktualizujCene(u: real)
      requires 0.0 <= u < 1.0
      modifies this
      ensures cena == NextPrice(old(cena), u)
    {
      var zmianaProcent := u * 6.0 - 3.0;
      var zmianaKwota := cena * (zmianaProcent / 100.0);
      cena := cena + zmianaKwota;
      if cena < FLOOR {
        cena := FLOOR;
      }
    }

    /** Java's `equals`: the same object, or another share with the same symbol. */
    predicate Equals(o: object?)
      ensures o == null ==> !Equals(o)
      ensures this == o ==> Equals(o)
      ensures o is Akcja ==> (Equals(o) <==> (o as Akcja).symbol == symbol)
      ensures Equals(o) ==> o is Akcja
    {
      this == o || (o is Akcja && (o as Akcja).symbol == symbol)
    }

    function HashCode(): (h: int)
      ensures InRange(h)
    {
      StringHashCode(symbol)
    }
  }

  /** Two shares are equal exactly when their symbols are. */
  lemma EqualsIffSameSymbol(a: Akcja, b: Akcja)
    ensures a.Equals(b) <==> a.PobierzSymbol() == b.PobierzSymbol()
  {
  }

  /** `Equals` is an equivalence relation, and no share equals null. */
  lemma EqualsIsEquivalence(a: Akcja, b: Akcja, c: Akcja)
    ensures a.Equals(a)
    ensures a.Equals(b) ==> b.Equals(a)
    ensures a.Equals(b) && b.Equals(c) ==> a.Equals(c)
    ensures !a.Equals(null)
  {
  }

  /** Equal shares have equal hash codes, since the hash code depends only on the symbol. */
  lemma EqualsImpliesSameHashCode(a: Akcja, b: Akcja)
    requires a.Equals(b)
    ensures a.HashCode() == b.HashCode()
  {
  }
}
