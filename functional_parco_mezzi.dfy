/** The fleet of the functional realization: an immutable value. Adding or removing
    a car builds a new fleet and leaves the given one as it was. The element type is
    a parameter: any type with value equality. */
module FunctionalParcoMezzi {
  import Liste

  datatype ParcoMezzi<T> = ParcoMezzi(auto: seq<T>)
  {
    /** The number of cars in the fleet, each copy of a car counted. */
    function TotaleAuto(): (n: nat)
      ensures n == |multiset(auto)|
      ensures n == 0 <==> auto == []
    {
      |auto|
    }
  }

  /** The empty fleet every sequence of transformations starts from. */
  function Vuoto<T>(): (p: ParcoMezzi<T>)
    ensures p.TotaleAuto() == 0
  {
    ParcoMezzi([])
  }

  /** A fleet with `a` added after all the cars of `parco`, which keep their order. */
  function AggiungiAuto<T>(parco: ParcoMezzi<T>, a: T): (r: ParcoMezzi<T>)
    ensures r.TotaleAuto() == parco.TotaleAuto() + 1
    ensures r.auto[..parco.TotaleAuto()] == parco.auto && r.auto[parco.TotaleAuto()] == a
  {
    parco.(auto := parco.auto + [a])
  }

  /** A fleet without the first car of `parco` equal in value to `a`; `parco`
      itself when no car is equal to it. */
  function RimuoviAuto<T(==)>(parco: ParcoMezzi<T>, a: T): (r: ParcoMezzi<T>)
    ensures a in parco.auto ==> r.TotaleAuto() == parco.TotaleAuto() - 1
    ensures a !in parco.auto ==> r == parco
    ensures multiset(r.auto) == multiset(parco.auto) - multiset{a}
  {
    parco.(auto := Liste.RemoveFirst(parco.auto, a))
  }

  /** Removal takes out exactly the first car equal to `a`: the cars before it and
      after it stay, in their order. */
  lemma RimuoviPrimaOccorrenza<T>(parco: ParcoMezzi<T>, a: T)
    requires a in parco.auto
    ensures var i := Liste.IndexOf(parco.auto, a);
      i < parco.TotaleAuto() && parco.auto[i] == a && a !in parco.auto[..i]
      && RimuoviAuto(parco, a).auto == parco.auto[..i] + parco.auto[i + 1..]
  {
    Liste.RemoveFirstSplices(parco.auto, a);
  }

  /** Removing a car just added, when it was not there before, gives back a fleet
      holding the same cars in the same order as the one started from. */
  lemma RimuoviDopoAggiungi<T>(parco: ParcoMezzi<T>, a: T)
    requires a !in parco.auto
    ensures RimuoviAuto(AggiungiAuto(parco, a), a) == parco
  {
    Liste.RemoveFirstAfterAppend(parco.auto, a);
  }

  /** Adding the cars `autos` one after the other, each step building the next fleet. */
  function AggiungiTutte<T>(parco: ParcoMezzi<T>, autos: seq<T>): ParcoMezzi<T>
    decreases |autos|
  {
    if autos == [] then parco else AggiungiTutte(AggiungiAuto(parco, autos[0]), autos[1..])
  }

  /** Successive additions append the cars in order, so the count grows by their number. */
  lemma {:induction false} AggiungiTutteAccoda<T>(parco: ParcoMezzi<T>, autos: seq<T>)
    ensures AggiungiTutte(parco, autos).auto == parco.auto + autos
    ensures AggiungiTutte(parco, autos).TotaleAuto() == parco.TotaleAuto() + |autos|
    decreases |autos|
  {
    if autos != [] {
      AggiungiTutteAccoda(AggiungiAuto(parco, autos[0]), autos[1..]);
      assert parco.auto + [autos[0]] + autos[1..] == parco.auto + autos;
    }
  }

  /** N additions starting from the empty fleet give a fleet of N cars. */
  lemma AggiuntaDiNAuto<T>(autos: seq<T>)
    ensures AggiungiTutte(Vuoto(), autos).TotaleAuto() == |autos|
  {
    AggiungiTutteAccoda(Vuoto(), autos);
  }

  /** After N additions from the empty fleet, removing any of the added cars gives
      a fleet of N - 1 cars. */
  lemma RimozioneDopoNAggiunte<T>(autos: seq<T>, k: nat)
    requires k < |autos|
    ensures RimuoviAuto(AggiungiTutte(Vuoto(), autos), autos[k]).TotaleAuto() == |autos| - 1
  {
    AggiungiTutteAccoda(Vuoto(), autos);
  }
}
