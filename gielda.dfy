/**
 * The market (`Gielda`): a registry of shares keyed by symbol, seeded with
 * five shares. Shares are objects shared with callers, so advancing the
 * prices changes the very objects a caller may hold.
 */
module Exchange {
  import opened Shares

  class Gielda {
    var dostepneAkcje: map<string, Akcja>

    /** Every key is the symbol of the share stored under it. */
    ghost predicate Valid()
      reads this
    {
      forall s :: s in dostepneAkcje ==> dostepneAkcje[s].symbol == s
    }

    /** The current price of every listed symbol. */
    function Prices(): (r: map<string, real>)
      reads this, dostepneAkcje.Values
    {
      map s | s in dostepneAkcje :: dostepneAkcje[s].cena
    }

    /** The market lists `symbol` under that name and price. */
    ghost predicate Lists(symbol: string, nazwa: string, cena: real)
      reads this, dostepneAkcje.Values
    {
      symbol in dostepneAkcje && dostepneAkcje[symbol].nazwa == nazwa && dostepneAkcje[symbol].cena == cena
    }

    constructor ()
      ensures Valid()
      ensures dostepneAkcje.Keys == {"CDR", "PKO", "KGH", "PKN", "PZU"}
      ensures Lists("CDR", "CD Projekt", 300.0) && Lists("PKO", "PKO BP", 40.0)
      ensures Lists("KGH", "KGHM", 120.0) && Lists("PKN", "Orlen", 80.0) && Lists("PZU", "PZU", 35.0)
      ensures fresh(dostepneAkcje["CDR"]) && fresh(dostepneAkcje["PKO"]) && fresh(dostepneAkcje["KGH"])
      ensures fresh(dostepneAkcje["PKN"]) && fresh(dostepneAkcje["PZU"])
    {
      dostepneAkcje := map[];
      new;
      InicjalizujAkcje();
    }

    /** Lists the five seed shares, each a new object, in the empty market the constructor made. */
    method InicjalizujAkcje()
      requires dostepneAkcje == map[]
      modifies this
      ensures Valid()
      ensures dostepneAkcje.Keys == {"CDR", "PKO", "KGH", "PKN", "PZU"}
      ensures Lists("CDR", "CD Projekt", 300.0) && Lists("PKO", "PKO BP", 40.0)
      ensures Lists("KGH", "KGHM", 120.0) && Lists("PKN", "Orlen", 80.0) && Lists("PZU", "PZU", 35.0)
      ensures fresh(dostepneAkcje["CDR"]) && fresh(dostepneAkcje["PKO"]) && fresh(dostepneAkcje["KGH"])
      ensures fresh(dostepneAkcje["PKN"]) && fresh(dostepneAkcje["PZU"])
    {
      var cdr := new Akcja("CDR", "CD Projekt", 300.0);
      DodajAkcje(cdr);
      var pko := new Akcja("PKO", "PKO BP", 40.0);
      DodajAkcje(pko);
      var kgh := new Akcja("KGH", "KGHM", 120.0);
      DodajAkcje(kgh);
      var pkn := new Akcja("PKN", "Orlen", 80.0);
      DodajAkcje(pkn);
      var pzu := new Akcja("PZU", "PZU", 35.0);
      DodajAkcje(pzu);
      assert dostepneAkcje == map["CDR" := cdr, "PKO" := pko, "KGH" := kgh, "PKN" := pkn, "PZU" := pzu];
      SeedMapShape(cdr, pko, kgh, pkn, pzu);
    }

    /** Lists `akcja` under its symbol, replacing whatever was listed there. */
    method DodajAkcje(akcja: Akcja)
      requires Valid()
      modifies this
      ensures Valid()
      ensures dostepneAkcje == old(dostepneAkcje)[akcja.symbol := akcja]
      ensures PobierzAkcje(akcja.PobierzSymbol()) == akcja
    {
      dostepneAkcje := dostepneAkcje[akcja.PobierzSymbol() := akcja];
    }

    /** The share listed under `symbol`, or null when there is none. */
    function PobierzAkcje(symbol: string): (r: Akcja?)
      reads this
      ensures r == null <==> symbol !in dostepneAkcje
      ensures r != null ==> r == dostepneAkcje[symbol]
      ensures Valid() && r != null ==> r.symbol == symbol
    {
      if symbol in dostepneAkcje then dostepneAkcje[symbol] else null
    }

    /**
     * A new list of the listed shares: each listed share exactly once, in
     * the map's (unspecified) iteration order. The map is left as it is.
     */
    method PobierzWszystkieAkcje() returns (lista: seq<Akcja>)
      requires Valid()
      ensures |lista| == |dostepneAkcje|
      ensures forall i :: 0 <= i < |lista| ==> lista[i].symbol in dostepneAkcje && dostepneAkcje[lista[i].symbol] == lista[i]
      ensures forall s :: s in dostepneAkcje ==> dostepneAkcje[s] in lista
      ensures forall i, j :: 0 <= i < j < |lista| ==> lista[i] != lista[j]
    {
      lista := [];
      var pozostale := dostepneAkcje.Keys;
      while pozostale != {}
        invariant pozostale <= dostepneAkcje.Keys
        invariant |lista| + |pozostale| == |dostepneAkcje.Keys|
        invariant forall i :: 0 <= i < |lista| ==>
                    lista[i].symbol in dostepneAkcje && lista[i].symbol !in pozostale && dostepneAkcje[lista[i].symbol] == lista[i]
        invariant forall s :: s in dostepneAkcje && s !in pozostale ==> dostepneAkcje[s] in lista
        invariant forall i, j :: 0 <= i < j < |lista| ==> lista[i] != lista[j]
        decreases pozostale
      {
        var s :| s in pozostale;
        lista := lista + [dostepneAkcje[s]];
        pozostale := pozostale - {s};
      }
    }

    /**
     * Advances every listed share by one step of its price walk, `draws[s]`
     * being the draw of the share listed under `s`. The listing itself, and
     * every share that is not listed, stay as they are.
     */
    method AktualizujCeny(draws: map<string, real>)
      requires Valid()
      requires dostepneAkcje.Keys <= draws.Keys
      requires forall s :: s in dostepneAkcje ==> 0.0 <= draws[s] < 1.0
      modifies dostepneAkcje.Values
      ensures dostepneAkcje == old(dostepneAkcje)
      ensures forall s :: s in dostepneAkcje ==> dostepneAkcje[s].cena == NextPrice(old(dostepneAkcje[s].cena), draws[s])
      ensures forall s :: s in dostepneAkcje ==> FLOOR <= dostepneAkcje[s].cena
    {
      var pozostale := dostepneAkcje.Keys;
      while pozostale != {}
        invariant pozostale <= dostepneAkcje.Keys
        invariant forall s :: s in dostepneAkcje && s !in pozostale ==>
                    dostepneAkcje[s].cena == NextPrice(old(dostepneAkcje[s].cena), draws[s])
        invariant forall s :: s in pozostale ==> dostepneAkcje[s].cena == old(dostepneAkcje[s].cena)
        decreases pozostale
      {
        var s :| s in pozostale;
        dostepneAkcje[s].AktualizujCene(draws[s]);
        pozostale := pozostale - {s};
      }
    }
  }

  /** The keys and entries of a map holding one value under each seed symbol. */
  lemma SeedMapShape<V>(a: V, b: V, c: V, d: V, e: V)
    ensures var m := map["CDR" := a, "PKO" := b, "KGH" := c, "PKN" := d, "PZU" := e];
      m.Keys == {"CDR", "PKO", "KGH", "PKN", "PZU"} && m["CDR"] == a && m["PKO"] == b && m["KGH"] == c && m["PKN"] == d && m["PZU"] == e
  {
  }

  /** Two different symbols never share one object, so the market holds at most one share per symbol. */
  lemma OneSharePerSymbol(g: Gielda, s: string, t: string)
    requires g.Valid()
    requires s in g.dostepneAkcje && t in g.dostepneAkcje && s != t
    ensures g.dostepneAkcje[s] != g.dostepneAkcje[t]
    ensures !g.dostepneAkcje[s].Equals(g.dostepneAkcje[t])
  {
  }
}
