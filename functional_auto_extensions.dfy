/** The two state transitions of the functional car: pure functions from one state
    type to the other. Renting is only defined on an available car and returning
    only on a rented one, so renting a rented car cannot even be written. */
module FunctionalAutoExtensions {
  import opened FunctionalAuto

  /** Rents an available car: the same car, now rented. */
  function Noleggia(auto: AutoDisponibile): (r: AutoNoleggiata)
    ensures r.Id == auto.Id && r.Targa == auto.Targa && r.Capacita == auto.Capacita
  {
    AutoNoleggiata(auto.Id, auto.Targa, auto.Capacita)
  }

  /** Returns a rented car: the same car, available again. */
  function Restituisci(auto: AutoNoleggiata): (r: AutoDisponibile)
    ensures r.Id == auto.Id && r.Targa == auto.Targa && r.Capacita == auto.Capacita
  {
    AutoDisponibile(auto.Id, auto.Targa, auto.Capacita)
  }

  /** Renting and then returning gives back the car one started with. */
  lemma RestituisciDopoNoleggia(a: AutoDisponibile)
    ensures Restituisci(Noleggia(a)) == a
  {
  }

  /** Returning and then renting again gives back the rented car one started with. */
  lemma NoleggiaDopoRestituisci(n: AutoNoleggiata)
    ensures Noleggia(Restituisci(n)) == n
  {
  }

  /** Seen as any car, a transition flips the state and keeps id, plate and seats. */
  lemma TransizioniCambianoSoloLoStato(a: AutoDisponibile, n: AutoNoleggiata)
    ensures var v := Noleggiata(Noleggia(a));
      v.Noleggiata? && v.Id() == Disponibile(a).Id() && v.Targa() == Disponibile(a).Targa()
      && v.Capacita() == Disponibile(a).Capacita()
    ensures var v := Disponibile(Restituisci(n));
      v.Disponibile? && v.Id() == Noleggiata(n).Id() && v.Targa() == Noleggiata(n).Targa()
      && v.Capacita() == Noleggiata(n).Capacita()
  {
  }
}
