/** The outcome of one rental in the object-oriented realization: the car, the cost
    and the customer, fixed when the outcome is created. */
module OopRisultatoNoleggio {
  import opened Comuni
  import opened OopAuto

  /** All three parts are read-only; `Costo` is a copy of an amount, not a link
      to the car. */
  datatype RisultatoNoleggio = RisultatoNoleggio(Auto: Auto, Costo: Decimal, ClienteId: string)

  /** The outcome for renting `auto` to `clienteId`: it refers to that very car and
      charges the car's daily rate as it is at this moment. */
  function Da(auto: Auto, clienteId: string): (r: RisultatoNoleggio)
    reads auto
    ensures r.Auto == auto
    ensures r.Costo == auto.CostoGiornaliero
    ensures r.ClienteId == clienteId
  {
    RisultatoNoleggio(auto, auto.CostoGiornaliero, clienteId)
  }

  /** Changing the car's rate after the outcome exists does not change the cost the
      outcome records, while the outcome still refers to the same car. */
  method CostoFissatoAllaCreazione(auto: Auto, clienteId: string, nuovoCosto: Decimal)
    returns (r: RisultatoNoleggio)
    modifies auto
    ensures auto.CostoGiornaliero == nuovoCosto
    ensures r.Auto == auto && r.Costo == old(auto.CostoGiornaliero) && r.ClienteId == clienteId
  {
    r := Da(auto, clienteId);
    auto.CostoGiornaliero := nuovoCosto;
  }
}
