/** The car of the functional realization. Its state is its type: an available car
    and a rented car are values of two different types, so no field can put a car
    in a state it is not in. */
module FunctionalAuto {
  import opened Comuni

  /** A car ready to be rented. */
  datatype AutoDisponibile = AutoDisponibile(Id: Guid, Targa: string, Capacita: Int32)

  /** A car in use by a customer. */
  datatype AutoNoleggiata = AutoNoleggiata(Id: Guid, Targa: string, Capacita: Int32)

  /** Any car, seen through the three properties both states expose. */
  datatype IAuto = Disponibile(disponibile: AutoDisponibile) | Noleggiata(noleggiata: AutoNoleggiata)
  {
    /** The `Id` of the car, whichever state it is in. */
    function Id(): (v: Guid)
      ensures Disponibile? ==> v == disponibile.Id
      ensures Noleggiata? ==> v == noleggiata.Id
    {
      match this
      case Disponibile(d) => d.Id
      case Noleggiata(n) => n.Id
    }

    /** The `Targa` of the car, whichever state it is in. */
    function Targa(): (v: string)
      ensures Disponibile? ==> v == disponibile.Targa
      ensures Noleggiata? ==> v == noleggiata.Targa
    {
      match this
      case Disponibile(d) => d.Targa
      case Noleggiata(n) => n.Targa
    }

    /** The `Capacita` of the car, whichever state it is in. */
    function Capacita(): (v: Int32)
      ensures Disponibile? ==> v == disponibile.Capacita
      ensures Noleggiata? ==> v == noleggiata.Capacita
    {
      match this
      case Disponibile(d) => d.Capacita
      case Noleggiata(n) => n.Capacita
    }
  }

  /** Every car is in exactly one of the two states. */
  lemma UnSoloStato(a: IAuto)
    ensures a.Disponibile? != a.Noleggiata?
  {
  }

  /** An available car and a rented car are never the same value, even when their
      id, plate and seats coincide. */
  lemma StatiDistinti(d: AutoDisponibile, n: AutoNoleggiata)
    ensures Disponibile(d) != Noleggiata(n)
  {
  }

  /** Two cars in the same state are equal exactly when their three fields are. */
  lemma UguaglianzaPerValore(d1: AutoDisponibile, d2: AutoDisponibile, n1: AutoNoleggiata, n2: AutoNoleggiata)
    ensures d1 == d2 <==> d1.Id == d2.Id && d1.Targa == d2.Targa && d1.Capacita == d2.Capacita
    ensures n1 == n2 <==> n1.Id == n2.Id && n1.Targa == n2.Targa && n1.Capacita == n2.Capacita
  {
  }
}
