/** A rental request of the object-oriented realization: an optional car id and a
    minimum number of seats, validated once when the request is built and never
    changed afterwards. */
module OopRichiestaNoleggio {
  import opened Comuni

  datatype RichiestaNoleggio = RichiestaNoleggio(IdAuto: Option<Guid>, PostiMinimi: Int32)

  /** Every request the constructor lets through asks for at least one seat. */
  predicate Valida(r: RichiestaNoleggio): (b: bool)
    ensures b <==> 1 <= r.PostiMinimi
  {
    r.PostiMinimi > 0
  }

  /** The requests that can exist: the constructor is private and guards this. */
  type RichiestaValida = r: RichiestaNoleggio | Valida(r) witness RichiestaNoleggio(None, 1)

  /** The `ArgumentException` the constructor throws, as the two arguments it is
      built from: `message` is the text passed in (the exception's `Message`
      property appends the parameter name to it) and `ParamName` the offending
      parameter. */
  datatype ArgumentException = ArgumentException(message: string, ParamName: string)

  /** What `new RichiestaNoleggio(...)` does: yields a request or throws. */
  datatype Costruzione = Creata(richiesta: RichiestaValida) | Rifiutata(eccezione: ArgumentException)

  const MessaggioPostiNonPositivi := "I posti richiesti devono essere positivi"

  /** The private constructor: refuses a non-positive seat count, otherwise stores
      both arguments unchanged. */
  function Nuova(idAuto: Option<Guid>, postiMinimi: Int32): (c: Costruzione)
    ensures c.Creata? <==> postiMinimi > 0
    ensures c.Creata? ==> c.richiesta.IdAuto == idAuto && c.richiesta.PostiMinimi == postiMinimi
    ensures c.Rifiutata? ==> c.eccezione == ArgumentException(MessaggioPostiNonPositivi, "postiMinimi")
  {
    if postiMinimi <= 0 then Rifiutata(ArgumentException(MessaggioPostiNonPositivi, "postiMinimi"))
    else Creata(RichiestaNoleggio(idAuto, postiMinimi))
  }

  /** A request for the car with id `id`, needing at least `postiMinimi` seats. */
  function PerId(id: Guid, postiMinimi: Int32): (c: Costruzione)
    ensures c.Creata? <==> postiMinimi > 0
    ensures c.Creata? ==> c.richiesta.IdAuto == Some(id) && c.richiesta.PostiMinimi == postiMinimi
    ensures c.Rifiutata? ==> c.eccezione.ParamName == "postiMinimi"
  {
    Nuova(Some(id), postiMinimi)
  }

  /** `PerId(id)` with the seat count left at its default of one: it always succeeds. */
  function PerIdPredefinito(id: Guid): (c: Costruzione)
    ensures c.Creata? && c.richiesta.IdAuto == Some(id) && c.richiesta.PostiMinimi == 1
  {
    PerId(id, 1)
  }

  /** A request for any car with at least `postiMinimi` seats: no id is named. */
  function PerCapacita(postiMinimi: Int32): (c: Costruzione)
    ensures c.Creata? <==> postiMinimi > 0
    ensures c.Creata? ==> c.richiesta.IdAuto.None? && c.richiesta.PostiMinimi == postiMinimi
    ensures c.Rifiutata? ==> c.eccezione.ParamName == "postiMinimi"
  {
    Nuova(None, postiMinimi)
  }

  /** The two factories differ only in the id: for the same positive seat count
      they build requests with the same `PostiMinimi`, and both fail together. */
  lemma FabbricheConcordi(id: Guid, postiMinimi: Int32)
    ensures PerId(id, postiMinimi).Creata? <==> PerCapacita(postiMinimi).Creata?
    ensures PerId(id, postiMinimi).Creata? ==>
      PerId(id, postiMinimi).richiesta == PerCapacita(postiMinimi).richiesta.(IdAuto := Some(id))
  {
  }

  /** A zero or negative seat count never yields a request, whichever factory is used. */
  lemma PostiNonPositiviRifiutati(id: Guid, postiMinimi: Int32)
    requires postiMinimi <= 0
    ensures PerCapacita(postiMinimi) == Rifiutata(ArgumentException(MessaggioPostiNonPositivi, "postiMinimi"))
    ensures PerId(id, postiMinimi) == PerCapacita(postiMinimi)
  {
  }
}
