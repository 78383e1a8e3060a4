/** The car of the object-oriented realization. Its only semantics in the source
    is identity: two `Auto` objects are the same car exactly when they are the same
    reference, which is how Dafny compares objects too. */
module OopAuto {
  import opened Comuni

  class Auto {
    /** The daily rate; the source's `Auto` declares no members, but the rental
        outcome reads this one when it is created. */
    var CostoGiornaliero: Decimal

    constructor (costoGiornaliero: Decimal)
      ensures CostoGiornaliero == costoGiornaliero
    {
      CostoGiornaliero := costoGiornaliero;
    }
  }

  /** The two states a car can be in; no operation of the model reads or changes it. */
  datatype StatoAuto = Disponibile | Noleggiata
}
