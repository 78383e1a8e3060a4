/** The fleet of the object-oriented realization: one object whose private list of
    cars is changed in place by adding and removing. */
module OopParcoMezzi {
  import Liste
  import opened OopAuto

  class ParcoMezzi {
    /** The private list `_auto`, in insertion order; duplicates are allowed. */
    var auto: seq<Auto>

    /** A new fleet holds no car. */
    constructor ()
      ensures auto == [] && TotaleAuto() == 0
    {
      auto := [];
    }

    /** The number of cars currently in the fleet, each copy of a car counted. */
    function TotaleAuto(): (n: nat)
      reads this
      ensures n == |multiset(auto)|
      ensures n == 0 <==> auto == []
    {
      |auto|
    }

    /** Appends `a` at the end, with no check for a car already present. */
    method AggiungiAuto(a: Auto)
      modifies this
      ensures auto == old(auto) + [a]
      ensures TotaleAuto() == old(TotaleAuto()) + 1
    {
      auto := auto + [a];
    }

    /** Removes the first element that is the very object `a`; answers whether
        there was one. Like `List<T>.Remove`: locate the first match, then remove
        at that position. */
    method RimuoviAuto(a: Auto) returns (trovata: bool)
      modifies this
      ensures trovata <==> a in old(auto)
      ensures auto == Liste.RemoveFirst(old(auto), a)
      ensures trovata ==> TotaleAuto() == old(TotaleAuto()) - 1
      ensures trovata ==>
        var i := Liste.IndexOf(old(auto), a);
        old(auto)[i] == a && a !in old(auto)[..i] && auto == old(auto)[..i] + old(auto)[i + 1..]
      ensures !trovata ==> auto == old(auto)
    {
      var i := Liste.IndexOf(auto, a);
      if i < |auto| {
        Liste.RemoveFirstSplices(auto, a);
        auto := auto[..i] + auto[i + 1..];
        trovata := true;
      } else {
        trovata := false;
      }
    }
  }

  /** Filling a new fleet with the cars `autos`, one call per car, leaves exactly
      those cars in that order, so the count is the number of calls. */
  method AggiuntaDiNAuto(autos: seq<Auto>) returns (parco: ParcoMezzi)
    ensures fresh(parco)
    ensures parco.auto == autos && parco.TotaleAuto() == |autos|
  {
    parco := new ParcoMezzi();
    var k := 0;
    while k < |autos|
      invariant 0 <= k <= |autos|
      invariant parco.auto == autos[..k]
    {
      parco.AggiungiAuto(autos[k]);
      assert autos[..k + 1] == autos[..k] + [autos[k]];
      k := k + 1;
    }
    assert autos[..|autos|] == autos;
  }

  /** Adding a car to a new fleet and removing that same object empties it again. */
  method RimozioneAuto(a: Auto) returns (parco: ParcoMezzi, trovata: bool)
    ensures fresh(parco)
    ensures trovata && parco.auto == [] && parco.TotaleAuto() == 0
  {
    parco := new ParcoMezzi();
    parco.AggiungiAuto(a);
    trovata := parco.RimuoviAuto(a);
  }

  /** The same object added twice is held twice; one removal takes out one copy. */
  method AggiuntaDoppia(a: Auto) returns (parco: ParcoMezzi, dopoAggiunte: nat, trovata: bool)
    ensures fresh(parco)
    ensures dopoAggiunte == 2
    ensures trovata && parco.auto == [a] && parco.TotaleAuto() == 1
  {
    parco := new ParcoMezzi();
    parco.AggiungiAuto(a);
    parco.AggiungiAuto(a);
    dopoAggiunte := parco.TotaleAuto();
    trovata := parco.RimuoviAuto(a);
  }

  /** Removal goes by identity: a different object, even one with the same rate,
      is not found and the fleet is left as it was. */
  method RimozioneDiAltroOggetto(a: Auto) returns (parco: ParcoMezzi, trovata: bool)
    ensures fresh(parco)
    ensures !trovata && parco.auto == [a]
  {
    parco := new ParcoMezzi();
    parco.AggiungiAuto(a);
    var copia := new Auto(a.CostoGiornaliero);
    trovata := parco.RimuoviAuto(copia);
  }
}
