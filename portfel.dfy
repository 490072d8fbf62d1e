/**
 * The portfolio ledger (`Portfel`): a cash balance and a map from symbol to
 * the number of shares held. Buying and selling validate first and change
 * state only when every check passes; failures are reported by returning
 * false. Stored quantities are Java `int`s and always strictly positive: a
 * position that reaches zero is removed.
 *
 * The ledger's state as a value is `Ledger`; `Buy` and `Sell` give the
 * outcome of one transaction on it, and the class methods are proved to
 * perform exactly that outcome on the object's fields.
 */
module Portfolio {
  import opened JavaInt
  import opened Shares
  import opened Exchange

  datatype Ledger = Ledger(gotowka: real, akcje: map<string, int>)

  /** Whether a transaction went through, and the ledger after it. */
  datatype Outcome = Outcome(ok: bool, after: Ledger)

  /** Every stored quantity is a positive Java `int`. */
  ghost predicate PositiveHoldings(akcje: map<string, int>) {
    forall s :: s in akcje ==> 0 < akcje[s] <= INT_MAX
  }

  /** The quantity held of `symbol`, 0 when it is not held (Java's `getOrDefault(symbol, 0)`). */
  function QuantityOf(akcje: map<string, int>, symbol: string): (r: int) {
    if symbol in akcje then akcje[symbol] else 0
  }

  /** Under positive holdings a symbol is a key exactly when some of it is held. */
  lemma HeldIffPositive(akcje: map<string, int>, symbol: string)
    requires PositiveHoldings(akcje)
    ensures symbol in akcje <==> 0 < QuantityOf(akcje, symbol)
  {
  }

  /**
   * The buy's new quantity fits in a Java `int`. It is only computed when
   * the quantity is positive and the cost is covered, so any other input fits.
   */
  predicate StoreFits(l: Ledger, symbol: string, cena: real, ilosc: int) {
    ilosc <= 0 || l.gotowka < cena * (ilosc as real) || QuantityOf(l.akcje, symbol) + ilosc <= INT_MAX
  }

  /** Buying `ilosc` shares of `symbol` at `cena` each. */
  function Buy(l: Ledger, symbol: string, cena: real, ilosc: int): (r: Outcome)
    requires StoreFits(l, symbol, cena, ilosc)
    ensures r.ok <==> 0 < ilosc && cena * (ilosc as real) <= l.gotowka
    ensures !r.ok ==> r.after == l
    ensures r.ok ==> r.after.gotowka == l.gotowka - cena * (ilosc as real)
    ensures r.ok ==> QuantityOf(r.after.akcje, symbol) == QuantityOf(l.akcje, symbol) + ilosc
    ensures forall s :: s != symbol ==> QuantityOf(r.after.akcje, s) == QuantityOf(l.akcje, s)
    ensures PositiveHoldings(l.akcje) ==> PositiveHoldings(r.after.akcje)
    ensures 0.0 <= l.gotowka ==> 0.0 <= r.after.gotowka
  {
    if ilosc <= 0 then Outcome(false, l)
    else
      var koszt := cena * (ilosc as real);
      if koszt > l.gotowka then Outcome(false, l)
      else Outcome(true, Ledger(l.gotowka - koszt, l.akcje[symbol := QuantityOf(l.akcje, symbol) + ilosc]))
  }

  /** Selling `ilosc` shares of `symbol` at `cena` each. */
  function Sell(l: Ledger, symbol: string, cena: real, ilosc: int): (r: Outcome)
    ensures r.ok <==> 0 < ilosc && symbol in l.akcje && ilosc <= l.akcje[symbol]
    ensures !r.ok ==> r.after == l
    ensures r.ok ==> r.after.gotowka == l.gotowka + cena * (ilosc as real)
    ensures r.ok ==> QuantityOf(r.after.akcje, symbol) == QuantityOf(l.akcje, symbol) - ilosc
    ensures r.ok ==> (symbol in r.after.akcje <==> ilosc < l.akcje[symbol])
    ensures forall s :: s != symbol ==> (s in r.after.akcje <==> s in l.akcje)
    ensures forall s :: s != symbol ==> QuantityOf(r.after.akcje, s) == QuantityOf(l.akcje, s)
    ensures PositiveHoldings(l.akcje) ==> PositiveHoldings(r.after.akcje)
  {
    if ilosc <= 0 then Outcome(false, l)
    else if symbol !in l.akcje || l.akcje[symbol] < ilosc then Outcome(false, l)
    else
      var wartosc := cena * (ilosc as real);
      var nowaIlosc := l.akcje[symbol] - ilosc;
      var akcje := if nowaIlosc == 0 then l.akcje - {symbol} else l.akcje[symbol := nowaIlosc];
      Outcome(true, Ledger(l.gotowka + wartosc, akcje))
  }

  // Valuation. Each held symbol contributes price * quantity when the market
  // lists it, and nothing otherwise; the sum does not depend on the order in
  // which the symbols are visited.

  function Contribution(akcje: map<string, int>, ceny: map<string, real>, symbol: string): (r: real)
    requires symbol in akcje
  {
    if symbol in ceny then ceny[symbol] * (akcje[symbol] as real) else 0.0
  }

  /** The sum of the contributions of `keys`, taken in an arbitrary order. */
  ghost function ValueOver(keys: set<string>, akcje: map<string, int>, ceny: map<string, real>): (r: real)
    requires keys <= akcje.Keys
    decreases keys
  {
    if keys == {} then 0.0
    else
      var s :| s in keys;
      Contribution(akcje, ceny, s) + ValueOver(keys - {s}, akcje, ceny)
  }

  /** The value of everything held, at the prices `ceny`. */
  ghost function AssetValue(akcje: map<string, int>, ceny: map<string, real>): (r: real) {
    ValueOver(akcje.Keys, akcje, ceny)
  }

  /** Cash plus the value of everything held. */
  ghost function TotalValue(l: Ledger, ceny: map<string, real>): (r: real) {
    l.gotowka + AssetValue(l.akcje, ceny)
  }

  /** Any key of the set may be taken first. */
  lemma {:induction false} ValueOverPick(keys: set<string>, akcje: map<string, int>, ceny: map<string, real>, s: string)
    requires keys <= akcje.Keys && s in keys
    ensures ValueOver(keys, akcje, ceny) == Contribution(akcje, ceny, s) + ValueOver(keys - {s}, akcje, ceny)
    decreases |keys|
  {
    var t :| t in keys && ValueOver(keys, akcje, ceny) == Contribution(akcje, ceny, t) + ValueOver(keys - {t}, akcje, ceny);
    if t != s {
      ValueOverPick(keys - {t}, akcje, ceny, s);
      ValueOverPick(keys - {s}, akcje, ceny, t);
      assert keys - {t} - {s} == keys - {s} - {t};
    }
  }

  /** The sum over `keys` depends only on the quantities stored under `keys`. */
  lemma {:induction false} ValueOverAgree(keys: set<string>, a: map<string, int>, b: map<string, int>, ceny: map<string, real>)
    requires keys <= a.Keys && keys <= b.Keys
    requires forall s :: s in keys ==> a[s] == b[s]
    ensures ValueOver(keys, a, ceny) == ValueOver(keys, b, ceny)
    decreases |keys|
  {
    if keys != {} {
      var s :| s in keys;
      ValueOverPick(keys, a, ceny, s);
      ValueOverPick(keys, b, ceny, s);
      assert Contribution(a, ceny, s) == Contribution(b, ceny, s);
      ValueOverAgree(keys - {s}, a, b, ceny);
    }
  }

  /** The value of a holding split into one symbol and the rest. */
  lemma AssetValueSplit(akcje: map<string, int>, ceny: map<string, real>, symbol: string)
    ensures AssetValue(akcje, ceny) == AssetValue(akcje - {symbol}, ceny) +
              (if symbol in akcje && symbol in ceny then ceny[symbol] * (QuantityOf(akcje, symbol) as real) else 0.0)
  {
    var rest := akcje - {symbol};
    if symbol in akcje {
      ValueOverPick(akcje.Keys, akcje, ceny, symbol);
      assert akcje.Keys - {symbol} == rest.Keys;
      ValueOverAgree(rest.Keys, akcje, rest, ceny);
    } else {
      assert rest == akcje;
    }
  }

  /** A symbol the market does not list adds nothing to the value. */
  lemma AssetValueIgnoresUnlisted(akcje: map<string, int>, ceny: map<string, real>, symbol: string)
    requires symbol !in ceny
    ensures AssetValue(akcje, ceny) == AssetValue(akcje - {symbol}, ceny)
  {
    AssetValueSplit(akcje, ceny, symbol);
  }

  /** At non-negative prices, positive holdings have a non-negative value. */
  lemma {:induction false} ValueOverNonNegative(keys: set<string>, akcje: map<string, int>, ceny: map<string, real>)
    requires keys <= akcje.Keys
    requires PositiveHoldings(akcje)
    requires forall s :: s in ceny ==> 0.0 <= ceny[s]
    ensures 0.0 <= ValueOver(keys, akcje, ceny)
    decreases keys
  {
    if keys != {} {
      var s :| s in keys && ValueOver(keys, akcje, ceny) == Contribution(akcje, ceny, s) + ValueOver(keys - {s}, akcje, ceny);
      if s in ceny {
        ProductSign(ceny[s], akcje[s] as real);
      }
      assert 0.0 <= Contribution(akcje, ceny, s);
      ValueOverNonNegative(keys - {s}, akcje, ceny);
      assert 0.0 <= ValueOver(keys - {s}, akcje, ceny);
    }
  }

  lemma Distribute(p: real, a: int, b: int)
    ensures p * ((a + b) as real) == p * (a as real) + p * (b as real)
  {
  }

  /** The value after storing `n` shares of a listed symbol: the rest plus `n` at its price. */
  lemma AssetValueAfterStore(akcje: map<string, int>, ceny: map<string, real>, symbol: string, n: int)
    requires symbol in ceny
    ensures AssetValue(akcje[symbol := n], ceny) == AssetValue(akcje - {symbol}, ceny) + ceny[symbol] * (n as real)
  {
    AssetValueSplit(akcje[symbol := n], ceny, symbol);
    assert akcje[symbol := n] - {symbol} == akcje - {symbol};
  }

  /** The value before a transaction on a listed symbol: the rest plus what is held of it at its price. */
  lemma AssetValueBefore(akcje: map<string, int>, ceny: map<string, real>, symbol: string)
    requires symbol in ceny
    ensures AssetValue(akcje, ceny) == AssetValue(akcje - {symbol}, ceny) + ceny[symbol] * (QuantityOf(akcje, symbol) as real)
  {
    AssetValueSplit(akcje, ceny, symbol);
  }

  /** Adding `k` shares of a listed symbol while paying their value in cash keeps the total. */
  lemma AddKeepsTotalValue(gotowka: real, akcje: map<string, int>, ceny: map<string, real>, symbol: string, k: int)
    requires symbol in ceny
    ensures TotalValue(Ledger(gotowka - ceny[symbol] * (k as real), akcje[symbol := QuantityOf(akcje, symbol) + k]), ceny)
         == TotalValue(Ledger(gotowka, akcje), ceny)
  {
    var q := QuantityOf(akcje, symbol);
    AssetValueBefore(akcje, ceny, symbol);
    AssetValueAfterStore(akcje, ceny, symbol, q + k);
    Distribute(ceny[symbol], q, k);
  }

  /** Taking away `k` shares of a listed symbol while receiving their value in cash keeps the total. */
  lemma SubtractKeepsTotalValue(gotowka: real, akcje: map<string, int>, ceny: map<string, real>, symbol: string, k: int)
    requires symbol in ceny
    ensures TotalValue(Ledger(gotowka + ceny[symbol] * (k as real), akcje[symbol := QuantityOf(akcje, symbol) - k]), ceny)
         == TotalValue(Ledger(gotowka, akcje), ceny)
  {
    var q := QuantityOf(akcje, symbol);
    AssetValueBefore(akcje, ceny, symbol);
    AssetValueAfterStore(akcje, ceny, symbol, q - k);
    Distribute(ceny[symbol], q - k, k);
  }

  /** Removing a listed symbol while cash grows by the value of what was held keeps the total. */
  lemma RemoveKeepsTotalValue(gotowka: real, akcje: map<string, int>, ceny: map<string, real>, symbol: string)
    requires symbol in ceny
    ensures TotalValue(Ledger(gotowka + ceny[symbol] * (QuantityOf(akcje, symbol) as real), akcje - {symbol}), ceny)
         == TotalValue(Ledger(gotowka, akcje), ceny)
  {
    AssetValueBefore(akcje, ceny, symbol);
  }

  /** A buy at the market's own price moves value from cash into shares and changes the total by nothing. */
  lemma BuyKeepsTotalValue(l: Ledger, symbol: string, ilosc: int, ceny: map<string, real>)
    requires symbol in ceny
    requires StoreFits(l, symbol, ceny[symbol], ilosc)
    ensures TotalValue(Buy(l, symbol, ceny[symbol], ilosc).after, ceny) == TotalValue(l, ceny)
  {
    var p := ceny[symbol];
    if 0 < ilosc && p * (ilosc as real) <= l.gotowka {
      BuySucceeds(l, symbol, p, ilosc);
      AddKeepsTotalValue(l.gotowka, l.akcje, ceny, symbol, ilosc);
    }
  }

  /** A sell that goes through receives its value and takes its quantity off the position, removing it when none is left. */
  lemma SellSucceeds(l: Ledger, symbol: string, cena: real, ilosc: int)
    requires 0 < ilosc && symbol in l.akcje && ilosc <= l.akcje[symbol]
    ensures Sell(l, symbol, cena, ilosc)
         == Outcome(true, Ledger(l.gotowka + cena * (ilosc as real),
                                 if ilosc == l.akcje[symbol] then l.akcje - {symbol}
                                 else l.akcje[symbol := QuantityOf(l.akcje, symbol) - ilosc]))
  {
  }

  /** A sell at the market's own price moves value from shares into cash and changes the total by nothing. */
  lemma SellKeepsTotalValue(l: Ledger, symbol: string, ilosc: int, ceny: map<string, real>)
    requires symbol in ceny
    ensures TotalValue(Sell(l, symbol, ceny[symbol], ilosc).after, ceny) == TotalValue(l, ceny)
  {
    var p := ceny[symbol];
    if 0 < ilosc && symbol in l.akcje && ilosc <= l.akcje[symbol] {
      SellSucceeds(l, symbol, p, ilosc);
      if l.akcje[symbol] == ilosc {
        RemoveKeepsTotalValue(l.gotowka, l.akcje, ceny, symbol);
      } else {
        SubtractKeepsTotalValue(l.gotowka, l.akcje, ceny, symbol, ilosc);
      }
    }
  }

  /** Selling right back what was just bought, at the same price, restores the ledger exactly. */
  lemma BuyThenSellRestores(l: Ledger, symbol: string, cena: real, ilosc: int)
    requires PositiveHoldings(l.akcje)
    requires StoreFits(l, symbol, cena, ilosc)
    requires Buy(l, symbol, cena, ilosc).ok
    ensures Sell(Buy(l, symbol, cena, ilosc).after, symbol, cena, ilosc) == Outcome(true, l)
  {
  }

  /** A buy that goes through pays its cost and adds its quantity to the position. */
  lemma BuySucceeds(l: Ledger, symbol: string, cena: real, ilosc: int)
    requires StoreFits(l, symbol, cena, ilosc)
    requires 0 < ilosc && cena * (ilosc as real) <= l.gotowka
    ensures Buy(l, symbol, cena, ilosc)
         == Outcome(true, Ledger(l.gotowka - cena * (ilosc as real), l.akcje[symbol := QuantityOf(l.akcje, symbol) + ilosc]))
  {
  }

  /** Two successful buys of one symbol land in one position and cost the same as a single buy of the sum. */
  lemma BuyTwiceMerges(l: Ledger, symbol: string, cena: real, q1: int, q2: int)
    requires StoreFits(l, symbol, cena, q1) && Buy(l, symbol, cena, q1).ok
    requires StoreFits(Buy(l, symbol, cena, q1).after, symbol, cena, q2)
    requires Buy(Buy(l, symbol, cena, q1).after, symbol, cena, q2).ok
    ensures StoreFits(l, symbol, cena, q1 + q2)
    ensures Buy(l, symbol, cena, q1 + q2) == Buy(Buy(l, symbol, cena, q1).after, symbol, cena, q2)
  {
  }

  /** One worked example: 1000.0 in cash, CDR at its seeded price of 300.0. */
  lemma CdrScenario()
    ensures Buy(Ledger(1000.0, map[]), "CDR", 300.0, 3) == Outcome(true, Ledger(100.0, map["CDR" := 3]))
    ensures Buy(Ledger(100.0, map["CDR" := 3]), "CDR", 300.0, 1) == Outcome(false, Ledger(100.0, map["CDR" := 3]))
    ensures Sell(Ledger(100.0, map["CDR" := 3]), "CDR", 300.0, 4) == Outcome(false, Ledger(100.0, map["CDR" := 3]))
    ensures Sell(Ledger(100.0, map["CDR" := 3]), "CDR", 300.0, 3) == Outcome(true, Ledger(1000.0, map[]))
  {
  }

  /**
   * The buy exactly as the Java code computes it: the new quantity is the
   * `int` sum `getOrDefault(symbol, 0) + ilosc`, which wraps around past
   * `INT_MAX` and is stored unchecked.
   */
  function BuyAsWritten(l: Ledger, symbol: string, cena: real, ilosc: int): (r: Outcome)
    ensures r.ok <==> 0 < ilosc && cena * (ilosc as real) <= l.gotowka
    ensures !r.ok ==> r.after == l
    ensures r.ok ==> r.after.gotowka == l.gotowka - cena * (ilosc as real)
    ensures r.ok ==> QuantityOf(r.after.akcje, symbol) == Wrap(QuantityOf(l.akcje, symbol) + ilosc)
    ensures forall s :: s != symbol ==> QuantityOf(r.after.akcje, s) == QuantityOf(l.akcje, s)
    ensures StoreFits(l, symbol, cena, ilosc) && PositiveHoldings(l.akcje) ==> r == Buy(l, symbol, cena, ilosc)
  {
    if ilosc <= 0 then Outcome(false, l)
    else
      var koszt := cena * (ilosc as real);
      if koszt > l.gotowka then Outcome(false, l)
      else Outcome(true, Ledger(l.gotowka - koszt, l.akcje[symbol := Wrap(QuantityOf(l.akcje, symbol) + ilosc)]))
  }

  /** Buying one more share of a full position stores a negative quantity and breaks the holdings invariant. */
  lemma BuyAsWrittenOverflows()
    ensures PositiveHoldings(map["CDR" := INT_MAX])
    ensures var r := BuyAsWritten(Ledger(1.0e10, map["CDR" := INT_MAX]), "CDR", 1.0, 1);
      r.ok && r.after.akcje["CDR"] == INT_MIN && !PositiveHoldings(r.after.akcje)
  {
  }

  /**
   * The buy as evidently intended: besides the two checks of the Java code
   * it refuses, leaving the ledger unchanged, a quantity that would not fit
   * in a Java `int`. It needs no precondition.
   */
  function BuyGuarded(l: Ledger, symbol: string, cena: real, ilosc: int): (r: Outcome)
    ensures r.ok <==> 0 < ilosc && cena * (ilosc as real) <= l.gotowka && QuantityOf(l.akcje, symbol) + ilosc <= INT_MAX
    ensures !r.ok ==> r.after == l
    ensures r.ok ==> r.after.gotowka == l.gotowka - cena * (ilosc as real)
    ensures r.ok ==> QuantityOf(r.after.akcje, symbol) == QuantityOf(l.akcje, symbol) + ilosc
    ensures PositiveHoldings(l.akcje) ==> PositiveHoldings(r.after.akcje)
    ensures StoreFits(l, symbol, cena, ilosc) ==> r == Buy(l, symbol, cena, ilosc)
  {
    if ilosc <= 0 then Outcome(false, l)
    else
      var koszt := cena * (ilosc as real);
      if koszt > l.gotowka then Outcome(false, l)
      else
        var nowaIlosc := QuantityOf(l.akcje, symbol) + ilosc;
        if nowaIlosc > INT_MAX then Outcome(false, l)
        else Outcome(true, Ledger(l.gotowka - koszt, l.akcje[symbol := nowaIlosc]))
  }

  /** Where the Java code wraps around, the guarded buy refuses and keeps the ledger as it was. */
  lemma BuyGuardedRefusesOverflow()
    ensures BuyGuarded(Ledger(1.0e10, map["CDR" := INT_MAX]), "CDR", 1.0, 1) == Outcome(false, Ledger(1.0e10, map["CDR" := INT_MAX]))
  {
  }

  class Portfel {
    var gotowka: real
    var akcje: map<string, int>

    ghost predicate Valid()
      reads this
    {
      PositiveHoldings(akcje)
    }

    /** The ledger's state as a value. */
    function State(): (r: Ledger)
      reads this
    {
      Ledger(gotowka, akcje)
    }

    constructor (poczatkowaGotowka: real)
      ensures Valid()
      ensures PobierzGotowke() == poczatkowaGotowka && PobierzAkcje() == map[]
    {
      gotowka := poczatkowaGotowka;
      akcje := map[];
    }

    method KupAkcje(akcja: Akcja, ilosc: int) returns (ok: bool)
      requires Valid()
      requires StoreFits(State(), akcja.symbol, akcja.cena, ilosc)
      modifies this
      ensures Valid()
      ensures Outcome(ok, State()) == Buy(old(State()), akcja.symbol, akcja.cena, ilosc)
    {
      if ilosc <= 0 {
        return false;
      }
      var koszt := akcja.PobierzCene() * (ilosc as real);
      if koszt > gotowka {
        return false;
      }
      ghost var before := State();
      BuySucceeds(before, akcja.symbol, akcja.cena, ilosc);
      gotowka := gotowka - koszt;
      akcje := akcje[akcja.PobierzSymbol() := QuantityOf(akcje, akcja.PobierzSymbol()) + ilosc];
      return true;
    }

    method SprzedajAkcje(akcja: Akcja, ilosc: int) returns (ok: bool)
      requires Valid()
      modifies this
      ensures Valid()
      ensures Outcome(ok, State()) == Sell(old(State()), akcja.symbol, akcja.cena, ilosc)
    {
      if ilosc <= 0 {
        return false;
      }
      var symbol := akcja.PobierzSymbol();
      if symbol !in akcje || akcje[symbol] < ilosc {
        return false;
      }
      var wartosc := akcja.PobierzCene() * (ilosc as real);
      gotowka := gotowka + wartosc;
      var nowaIlosc := akcje[symbol] - ilosc;
      if nowaIlosc == 0 {
        akcje := akcje - {symbol};
      } else {
        akcje := akcje[symbol := nowaIlosc];
      }
      return true;
    }

    /** The cash balance, the cash of the ledger `State()`. */
    function PobierzGotowke(): (r: real)
      reads this
      ensures r == gotowka && r == State().gotowka
    {
      gotowka
    }

    /** The holdings; on a valid ledger every quantity in them is positive. */
    function PobierzAkcje(): (m: map<string, int>)
      reads this
      ensures Valid() ==> PositiveHoldings(m)
    {
      akcje
    }

    /** The value of the holdings at the market's current prices; symbols the market does not list count 0. */
    method ObliczWartoscAkcji(gielda: Gielda) returns (wartosc: real)
      ensures wartosc == AssetValue(akcje, gielda.Prices())
    {
      wartosc := 0.0;
      var pozostale := akcje.Keys;
      ghost var zrobione: set<string> := {};
      while pozostale != {}
        invariant pozostale <= akcje.Keys
        invariant zrobione == akcje.Keys - pozostale
        invariant wartosc == ValueOver(zrobione, akcje, gielda.Prices())
        decreases pozostale
      {
        var symbol :| symbol in pozostale;
        var akcja := gielda.PobierzAkcje(symbol);
        if akcja != null {
          wartosc := wartosc + akcja.PobierzCene() * (akcje[symbol] as real);
        }
        ValueOverPick(zrobione + {symbol}, akcje, gielda.Prices(), symbol);
        assert zrobione + {symbol} - {symbol} == zrobione;
        pozostale := pozostale - {symbol};
        zrobione := zrobione + {symbol};
      }
      assert zrobione == akcje.Keys;
    }

    /** Cash plus the value of the holdings at the market's current prices. */
    method ObliczCalkowitaWartosc(gielda: Gielda) returns (wartosc: real)
      ensures wartosc == TotalValue(State(), gielda.Prices())
    {
      var wartoscAkcji := ObliczWartoscAkcji(gielda);
      wartosc := PobierzGotowke() + wartoscAkcji;
    }
  }
}
