# Stock-market simulator core in Dafny

This project models the three classes behind the console stock-market
simulator (`symulator_gieldy/symulator/`):

- Akcja: a share. It has a fixed symbol and name and a price that moves by
  a random walk. Each update draws a percentage change in [-3, 3) and clamps
  the price at a floor of 0.01.
- Gielda: the market. It is a registry from symbol to share, seeded with
  five shares. Adding a share overwrites whatever was listed under that
  symbol, and looking up an unknown symbol gives null. One call advances
  every listed share's price.
- Portfel: the portfolio. It holds a cash balance and a map from symbol to
  the number of shares held. A buy or a sell checks everything first and
  changes state only when every check passes, otherwise it returns false. A
  position that falls to zero is removed. The value of the holdings counts
  price times quantity for every held symbol the market still lists.

The code is laid out as follows:

- `java_int.dfy` (module `JavaInt`): Java's 32-bit `int`, its wrap-around,
  and `String.hashCode`.
- `akcja.dfy` (module `Shares`): the price rule as functions, the class
  `Akcja`, and its `equals`/`hashCode`.
- `gielda.dfy` (module `Exchange`): the class `Gielda`. Its map holds `Akcja`
  objects, so a price update changes the very objects callers hold.
- `portfel.dfy` (module `Portfolio`): the class `Portfel`; the value-level
  `Ledger` with `Buy`, `Sell`, `BuyAsWritten` and `BuyGuarded`; and the
  valuation functions `ValueOver`, `AssetValue` and `TotalValue` with their
  lemmas.

`Portfel`'s methods are proved to do exactly what the pure functions `Buy`
and `Sell` do on the value `Ledger(gotowka, akcje)`. The lemmas beside
those functions state what a sequence of transactions does:

- a buy followed by the matching sell restores the ledger;
- two buys of one symbol merge into one;
- a trade at the market's own price leaves cash plus asset value unchanged.

Money (`double`) is modelled as `real`. The random draw `u` of
`Random.nextDouble()` is a parameter with `0 <= u < 1`. In `Gielda`, the
update of all prices takes a map from each listed symbol to its draw.

## Model

| member | source | states |
|---|---|---|
| `JavaInt.Wrap` | symulator_gieldy/symulator/Portfel.java:28 | Java `int` addition: the result is an `int`, an in-range result is exact, and it is congruent to the exact sum modulo 2^32 |
| `JavaInt.StringHashCode` | symulator_gieldy/symulator/Akcja.java:48-51 | `String.hashCode`, the `int` fold h = 31*h + c, always lies in the `int` range |
| `JavaInt.StringHashCodeOfCdr` | symulator_gieldy/symulator/Akcja.java:48-51 | the hash code of the seeded symbol "CDR" is 66577, as the JDK computes it |
| `Shares.NextPrice` | symulator_gieldy/symulator/Akcja.java:32-37 | one price update, `cena * (1 + (6u - 3)/100)` or 0.01 when that falls below 0.01, is never below 0.01 |
| `Shares.WalkWindow` | symulator_gieldy/symulator/Akcja.java:32-34 | for a positive price and 0 <= u < 1, the unclamped new price lies in [97%, 103%) of the old one |
| `Shares.NextPriceWindow` | symulator_gieldy/symulator/Akcja.java:32-37 | the updated price is 0.01 or lies in [97%, 103%) of the old one; it is 0.01 exactly when the walked price is at most 0.01; a price with 97% of it at or above 0.01 is never clamped |
| `Shares.PriceAfterStep` | symulator_gieldy/symulator/Akcja.java:31-38 | a sequence of updates is a fold: one more update applies `NextPrice` once more to the price so far |
| `Shares.PriceAfterAtLeastFloor` | symulator_gieldy/symulator/Akcja.java:35-37 | after one or more updates, whatever the starting price, the price is at least 0.01 |
| `Shares.Akcja.constructor` | symulator_gieldy/symulator/Akcja.java:12-17 | the new share reports exactly the given symbol, name and price |
| `Shares.Akcja.PobierzSymbol` | symulator_gieldy/symulator/Akcja.java:19-21 | returns the stored symbol, which is the constructor's argument and, being constant, never changes |
| `Shares.Akcja.PobierzNazwe` | symulator_gieldy/symulator/Akcja.java:23-25 | returns the stored name, which is the constructor's argument and never changes |
| `Shares.Akcja.PobierzCene` | symulator_gieldy/symulator/Akcja.java:27-29 | returns the current price, reading the share and changing nothing |
| `Shares.Akcja.AktualizujCene` | symulator_gieldy/symulator/Akcja.java:31-38 | the method's add-then-clamp steps leave the price at `NextPrice(old price, u)`; symbol and name are constants |
| `Shares.Akcja.Equals` | symulator_gieldy/symulator/Akcja.java:40-46 | a share equals itself; it never equals null or anything that is not an `Akcja`; and it equals another `Akcja` exactly when their symbols are equal |
| `Shares.Akcja.HashCode` | symulator_gieldy/symulator/Akcja.java:48-51 | the hash code is an `int` and is the symbol's `String.hashCode` |
| `Shares.EqualsIffSameSymbol` | symulator_gieldy/symulator/Akcja.java:40-46 | the contract of `Akcja.Equals` (Java `equals`): two shares are equal if and only if their symbols are equal |
| `Shares.EqualsIsEquivalence` | symulator_gieldy/symulator/Akcja.java:40-46 | `equals` is reflexive, symmetric and transitive, and no share equals null |
| `Shares.EqualsImpliesSameHashCode` | symulator_gieldy/symulator/Akcja.java:40-51 | equal shares have equal hash codes |
| `Exchange.Gielda.constructor` | symulator_gieldy/symulator/Gielda.java:8-11 | a new market lists exactly CDR, PKO, KGH, PKN and PZU, with their names and the prices 300, 40, 120, 80 and 35, each as a new object, with every key the symbol of its share |
| `Exchange.Gielda.InicjalizujAkcje` | symulator_gieldy/symulator/Gielda.java:13-19 | starting from the empty map, the five seed shares are created and listed under their symbols with the seed names and prices |
| `Exchange.Gielda.DodajAkcje` | symulator_gieldy/symulator/Gielda.java:21-23 | the share is listed under its symbol and replaces any earlier entry there, every other entry stays, and a lookup of its symbol then gives it back |
| `Exchange.Gielda.PobierzAkcje` | symulator_gieldy/symulator/Gielda.java:25-27 | the lookup is null exactly when the symbol is not listed, and otherwise gives the share listed under it, whose symbol is the one looked up |
| `Exchange.Gielda.PobierzWszystkieAkcje` | symulator_gieldy/symulator/Gielda.java:29-31 | the list holds every listed share exactly once and nothing else, and its length is the number of symbols |
| `Exchange.Gielda.AktualizujCeny` | symulator_gieldy/symulator/Gielda.java:33-37 | the listing is unchanged, every listed share's price becomes `NextPrice` of its old price under its own draw, and every listed price ends at least 0.01 |
| `Exchange.OneSharePerSymbol` | symulator_gieldy/symulator/Gielda.java:21-23 | because every key is its share's symbol, two different symbols never hold the same share or equal shares |
| `Portfolio.HeldIffPositive` | symulator_gieldy/symulator/Portfel.java:45-50 | under the holdings invariant, a symbol is a key exactly when a positive quantity of it is held |
| `Portfolio.Buy` | symulator_gieldy/symulator/Portfel.java:17-31 | a buy succeeds exactly when 0 < ilosc and cost <= cash; on failure nothing changes; on success cash drops by exactly price*ilosc and the symbol's quantity rises by ilosc; other symbols keep their quantities; positive holdings stay positive; non-negative cash stays non-negative |
| `Portfolio.Sell` | symulator_gieldy/symulator/Portfel.java:33-53 | a sell succeeds exactly when 0 < ilosc, the symbol is held and enough is held; on failure nothing changes; on success cash rises by price*ilosc and the quantity drops by ilosc; the key stays exactly when some remains; other symbols keep their keys and quantities; positive holdings stay positive |
| `Portfolio.BuyThenSellRestores` | symulator_gieldy/symulator/Portfel.java:17-53 | selling what a successful buy just bought, at the same price, restores the original ledger exactly |
| `Portfolio.BuyTwiceMerges` | symulator_gieldy/symulator/Portfel.java:27-28 | two successful buys of one symbol give the same ledger as one buy of the summed quantity |
| `Portfolio.CdrScenario` | symulator_gieldy/symulator/Portfel.java:17-53 | with 1000 in cash, buying 3 CDR at 300 leaves 100; a fourth does not fit; selling 4 fails; selling the 3 restores 1000 and no holdings |
| `Portfolio.ValueOverPick` | symulator_gieldy/symulator/Portfel.java:63-72 | the asset value sum does not depend on the order in which the map is iterated: any held symbol may be counted first |
| `Portfolio.AssetValueSplit` | symulator_gieldy/symulator/Portfel.java:63-72 | the asset value is the value of the other symbols plus price*quantity of one symbol, or plus 0 when that symbol is not held or not listed |
| `Portfolio.AssetValueIgnoresUnlisted` | symulator_gieldy/symulator/Portfel.java:66-69 | a symbol the market does not list contributes nothing to the asset value |
| `Portfolio.ValueOverNonNegative` | symulator_gieldy/symulator/Portfel.java:63-72 | at non-negative prices, positive holdings have a non-negative value |
| `Portfolio.BuyKeepsTotalValue` | symulator_gieldy/symulator/Portfel.java:17-31 | a buy at the market's current price of the symbol leaves cash plus asset value unchanged |
| `Portfolio.SellKeepsTotalValue` | symulator_gieldy/symulator/Portfel.java:33-53 | a sell at the market's current price of the symbol leaves cash plus asset value unchanged |
| `Portfolio.BuyAsWritten` | symulator_gieldy/symulator/Portfel.java:17-31 | the buy exactly as the Java code computes it: it succeeds under the same two checks as `Buy`; on failure nothing changes; on success cash drops by exactly price*ilosc and the wrapped `int` sum is stored as the new quantity; other symbols keep their quantities; and it on positive holdings agrees with `Buy` wherever `StoreFits` holds |
| `Portfolio.BuyAsWrittenOverflows` | symulator_gieldy/symulator/Portfel.java:28 | from a valid holding of 2147483647 CDR with cash to spare, buying 1 more succeeds and stores -2147483648, so the holdings are no longer all positive |
| `Portfolio.BuyGuarded` | symulator_gieldy/symulator/Portfel.java:17-31 | the corrected buy, with no precondition: it succeeds exactly when 0 < ilosc, the cost is covered and the new quantity fits in an `int`; on failure nothing changes; it keeps every quantity positive; and it equals `Buy` wherever `StoreFits` holds |
| `Portfolio.BuyGuardedRefusesOverflow` | symulator_gieldy/symulator/Portfel.java:28 | on that same input the corrected buy refuses and leaves the ledger unchanged |
| `Portfolio.Portfel.constructor` | symulator_gieldy/symulator/Portfel.java:12-15 | a new portfolio has the given cash and no holdings |
| `Portfolio.Portfel.KupAkcje` | symulator_gieldy/symulator/Portfel.java:17-31 | the method's result and the new cash and holdings are exactly the outcome of `Buy` at the share's symbol and current price, and the holdings invariant is kept |
| `Portfolio.Portfel.SprzedajAkcje` | symulator_gieldy/symulator/Portfel.java:33-53 | the method's result and the new cash and holdings are exactly the outcome of `Sell` at the share's symbol and current price, and the holdings invariant is kept |
| `Portfolio.Portfel.PobierzGotowke` | symulator_gieldy/symulator/Portfel.java:55-57 | returns the cash balance, the cash of the portfolio's ledger `State()`, changing nothing |
| `Portfolio.Portfel.PobierzAkcje` | symulator_gieldy/symulator/Portfel.java:59-61 | the current holdings map, every quantity of which is positive on a valid portfolio |
| `Portfolio.Portfel.ObliczWartoscAkcji` | symulator_gieldy/symulator/Portfel.java:63-72 | the loop's sum is the asset value: price*quantity over the held symbols the market lists, 0 for the rest |
| `Portfolio.Portfel.ObliczCalkowitaWartosc` | symulator_gieldy/symulator/Portfel.java:74-76 | the total value is cash plus the asset value |

## Left out

- Console output is left out: the `System.out.println` messages in `Portfel`'s methods and `Gielda.wyswietlRynek` (Gielda.java:39-45). Only results and state changes are modelled.
- `SymulatorGieldy.java` is not part of this model. It is a menu loop over `Scanner` that only calls into the three classes.
- `ZarzadcaPlikow.java` is not part of this model. It is file persistence by Java serialisation. Its one rule, that a missing or unreadable file gives `new Portfel(10000)`, is not modelled.
- `java.util.Random` is not modelled. Each draw is a parameter `u` with `0 <= u < 1`, the contract of `nextDouble()`.
- IEEE `double` rounding is not modelled; money and prices are exact `real`s.
- Exchange.Gielda.AktualizujCeny: the order in which the `HashMap` visits the shares is not modelled. Each share gets its own draw from the map `draws`, so which draw goes to which share is fixed by the caller rather than by iteration order.
- Exchange.Gielda.PobierzWszystkieAkcje: states the list's contents and that each share appears once, not the `HashMap`'s iteration order.
- Exchange.Gielda.InicjalizujAkcje: stated only for the empty map that its one caller, the constructor, gives it.
- Portfolio.Portfel.KupAkcje: requires `StoreFits`, meaning the new quantity fits in a Java `int` whenever the buy would pass both checks. The Java code has no such guard (see Findings). Under that precondition the method's outcome is `Buy`'s, which the corrected `BuyGuarded` equals there. The wrapping case is modelled only by `BuyAsWritten`, not by the method.
- Portfolio.Portfel.PobierzAkcje: Java returns the live `HashMap`, so a caller could change the holdings through it. The model returns the map as a value, so this aliasing is not captured.
- Quantity parameters (`int ilosc`) are unbounded `int`s. Only the stored quantity's `int` bound is tracked.
- Shares.Akcja.HashCode: `String.hashCode` is modelled over Dafny characters (Unicode scalar values). This agrees with Java's UTF-16 code units only for characters of the Basic Multilingual Plane.
- Shares.Akcja.Equals: the `getClass() != o.getClass()` test is modelled as a type test. The two agree because `Akcja` has no subclasses here.
- A `NullPointerException` on a null share argument is not modelled; share parameters are non-null.

## Findings

| source | as written | input that shows it | evidently intended | confidence | as-written member | corrected member |
|---|---|---|---|---|---|---|
| symulator_gieldy/symulator/Portfel.java:28 | `akcje.getOrDefault(symbol, 0) + ilosc` is computed in 32-bit `int` and stored unchecked | holding 2147483647 shares and buying 1 more that the cash covers stores -2147483648, a negative position | stored quantities stay positive, so the buy should be refused rather than wrap | not executed | `Portfolio.BuyAsWrittenOverflows` | `Portfolio.BuyGuarded` |
