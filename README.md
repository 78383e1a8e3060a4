# car-sharp fleet kernel in Dafny

This project models the domain kernel of the car-sharp rental fleet. The kernel
exists in two forms:

- **Object-oriented.** `ParcoMezzi` is a fleet object whose private list of `Auto`
  objects is changed in place. `AggiungiAuto` appends a car. `RimuoviAuto` removes
  the first element that is the very same object and answers whether one was
  found. `TotaleAuto` is the count.
  - `RichiestaNoleggio` is a rental request. Its constructor refuses a seat count
    of zero or less.
  - `RisultatoNoleggio.Da` records a rental outcome. It copies the car's daily
    rate as the cost.
- **Functional.** `ParcoMezzi` is an immutable value. Adding and removing build a
  new fleet, and removal matches by value equality. A car's state is its type:
  `AutoDisponibile` (available) or `AutoNoleggiata` (rented).
  - `Noleggia` (rent) and `Restituisci` (return) convert one type into the other.
  - `Result<T>` with `Bind` chains steps that can fail.

Files, one module each:

- `comuni.dfy` holds the .NET value types used: `Guid`, `int`, `decimal` and nullable values.
- `liste.dfy` holds the removal semantics that `List<T>.Remove` and
  `ImmutableList<T>.Remove` share. Both find the first equal element and remove it.
  Dafny's `==` is reference identity on classes and value equality on datatypes,
  so the same definition serves both fleets.
- `oop_auto.dfy`, `oop_parco_mezzi.dfy`, `oop_richiesta_noleggio.dfy` and
  `oop_risultato_noleggio.dfy` model the object-oriented form.
- `functional_auto.dfy`, `functional_auto_extensions.dfy`, `functional_result.dfy`
  and `functional_parco_mezzi.dfy` model the functional form.

The object-oriented fleet is a Dafny class. Its methods state the new list in
terms of the old one. The other components are pure, as in the source. They
are datatypes and functions, with lemmas for round trips, identities and the
effect of repeated operations.

What the code does, and so what the model does:

- The code checks no capacity/price invariant when a car is added. It has no
  allocation, batches or settlement.
- The code does not treat removing an absent car as an error. The object-oriented
  fleet returns `false` and the functional one returns the fleet it was given.
- The code defines returning a car only on a rented car, so returning is not idempotent.

## Model

| member | source | states |
|---|---|---|
| Liste.IndexOf | src/CarSharp.Oop/ParcoMezzi.cs:35-40 | the position found is that of the first element equal to the car; it is past the end exactly when no element is equal |
| Liste.RemoveFirst | src/CarSharp.Functional/ParcoMezzi.cs:47-50 | removing an absent element changes nothing; removing a present one shortens the list by one and takes exactly one copy of it out of the multiset of elements |
| Liste.RemoveFirstSplices | src/CarSharp.Oop/ParcoMezzi.cs:35-40 | removal cuts out exactly the element at the first matching position; everything before and after it stays, in order |
| Liste.RemoveFirstAt | src/CarSharp.Oop/ParcoMezzi.cs:40 | if position i holds the first element equal to the car, removal is exactly the list with position i cut out |
| Liste.RemoveFirstAfterAppend | src/CarSharp.Functional/ParcoMezzi.cs:37-50 | appending an element not already present and then removing it gives back the original list |
| OopAuto.Auto.constructor | src/CarSharp.Oop/RisultatoNoleggio.cs:23 | a new car carries the daily rate it was given, the rate a rental outcome later reads |
| OopParcoMezzi.ParcoMezzi.constructor | src/CarSharp.Oop/ParcoMezzi.cs:12-17 | a new fleet holds no car and its count is 0 |
| OopParcoMezzi.ParcoMezzi.TotaleAuto | src/CarSharp.Oop/ParcoMezzi.cs:17 | the count is the number of cars held, each copy counted, and is 0 exactly when the fleet is empty |
| OopParcoMezzi.ParcoMezzi.AggiungiAuto | src/CarSharp.Oop/ParcoMezzi.cs:24-27 | the car goes last, the earlier cars keep their order, and the count grows by exactly 1, with no duplicate check |
| OopParcoMezzi.ParcoMezzi.RimuoviAuto | src/CarSharp.Oop/ParcoMezzi.cs:35-41 | returns true iff the very object is in the fleet; if so only its first occurrence goes, the count drops by 1 and the rest keep their order; if not the list is unchanged |
| OopParcoMezzi.AggiuntaDiNAuto | src/CarSharp.Oop.Tests/ParcoMezziTests.cs:26-42 | N additions to a new fleet leave exactly those N cars, in order, and a count of N |
| OopParcoMezzi.RimozioneAuto | src/CarSharp.Oop.Tests/ParcoMezziTests.cs:45-58 | adding a car to a new fleet and removing the same object finds it and brings the count back to 0 |
| OopParcoMezzi.AggiuntaDoppia | src/CarSharp.Oop/ParcoMezzi.cs:24-41 | the same object added twice counts 2; one removal leaves one copy |
| OopParcoMezzi.RimozioneDiAltroOggetto | src/CarSharp.Oop/ParcoMezzi.cs:37-40 | a different object, even with the same rate, is not found, and the fleet is unchanged |
| OopRichiestaNoleggio.Nuova | src/CarSharp.Oop/RichiestaNoleggio.cs:13-19 | a request is created iff the seat count is positive, and keeps both arguments; otherwise an ArgumentException with the source's message and parameter name results |
| OopRichiestaNoleggio.Valida | src/CarSharp.Oop/RichiestaNoleggio.cs:10-15 | a request can exist only with at least one seat; the type `RichiestaValida` of every created request carries this guard |
| OopRichiestaNoleggio.PerId | src/CarSharp.Oop/RichiestaNoleggio.cs:21 | succeeds iff the seat count is positive, with IdAuto the given id and PostiMinimi the given count |
| OopRichiestaNoleggio.PerIdPredefinito | src/CarSharp.Oop/RichiestaNoleggio.cs:21 | with the seat count left at its default, the request always exists and asks for 1 seat |
| OopRichiestaNoleggio.PerCapacita | src/CarSharp.Oop/RichiestaNoleggio.cs:22 | succeeds iff the seat count is positive, with no car id and PostiMinimi the given count |
| OopRichiestaNoleggio.FabbricheConcordi | src/CarSharp.Oop/RichiestaNoleggio.cs:21-22 | the two factories fail for the same counts and otherwise build requests with the same PostiMinimi, differing only in IdAuto |
| OopRichiestaNoleggio.PostiNonPositiviRifiutati | src/CarSharp.Oop.Tests/RichiestaNoleggio_ValidazioneTests.cs:12-17 | a count of 0 or less yields no request from either factory, only the ArgumentException |
| OopRisultatoNoleggio.Da | src/CarSharp.Oop/RisultatoNoleggio.cs:21-24 | the outcome refers to the very car passed, records its current daily rate as the cost, and keeps the customer id |
| OopRisultatoNoleggio.CostoFissatoAllaCreazione | src/CarSharp.Oop/RisultatoNoleggio.cs:10-23 | changing the car's rate after the outcome exists leaves the recorded cost at the old rate |
| FunctionalAuto.UnSoloStato | src/CarSharp.Functional/Auto.cs:22-27 | every car is exactly one of available and rented |
| FunctionalAuto.StatiDistinti | src/CarSharp.Functional/Auto.cs:22-27 | an available car never equals a rented car, even with the same three fields |
| FunctionalAuto.UguaglianzaPerValore | src/CarSharp.Functional/Auto.cs:22-27 | two cars in the same state are equal iff id, plate and seats are equal |
| FunctionalAuto.IAuto.Id | src/CarSharp.Functional/Auto.cs:14 | the id of a car in either state is the id of its record |
| FunctionalAuto.IAuto.Targa | src/CarSharp.Functional/Auto.cs:15 | the plate of a car in either state is the plate of its record |
| FunctionalAuto.IAuto.Capacita | src/CarSharp.Functional/Auto.cs:16 | the seat count of a car in either state is that of its record |
| FunctionalAutoExtensions.Noleggia | src/CarSharp.Functional/AutoExtensions.cs:12-15 | renting gives a rented car with the same id, plate and seats |
| FunctionalAutoExtensions.Restituisci | src/CarSharp.Functional/AutoExtensions.cs:21-24 | returning gives an available car with the same id, plate and seats |
| FunctionalAutoExtensions.RestituisciDopoNoleggia | src/CarSharp.Functional/AutoExtensions.cs:12-24 | returning a car just rented gives back the original available car |
| FunctionalAutoExtensions.NoleggiaDopoRestituisci | src/CarSharp.Functional/AutoExtensions.cs:12-24 | renting a car just returned gives back the original rented car |
| FunctionalAutoExtensions.TransizioniCambianoSoloLoStato | src/CarSharp.Functional/AutoExtensions.cs:12-24 | seen through the common car view, each transition flips the state and keeps id, plate and seats |
| FunctionalResult.Result.IsSuccess | src/CarSharp.Functional/Result.cs:12 | a result is a success exactly when it is not a failure |
| FunctionalResult.Result.IsFailure | src/CarSharp.Functional/Result.cs:13 | a result is a failure exactly when it is not a success |
| FunctionalResult.Result.Value | src/CarSharp.Functional/Result.cs:15 | the success value on a success, the type's default on a failure |
| FunctionalResult.Result.Error | src/CarSharp.Functional/Result.cs:16 | the error on a failure, null on a success |
| FunctionalResult.Result.Bind | src/CarSharp.Functional/Result.cs:26-34 | on a success the result is the function applied to the value; on a failure it is a failure with the same error |
| FunctionalResult.From | src/CarSharp.Functional/Result.cs:21 | a success whose value is the argument and whose error is null |
| FunctionalResult.Fail | src/CarSharp.Functional/Result.cs:22 | a failure whose error is the argument |
| FunctionalResult.FailWithMessage | src/CarSharp.Functional/Result.cs:23 | a failure whose error carries the given message |
| FunctionalResult.EsattamenteUno | src/CarSharp.Functional/Result.cs:12-16 | exactly one of IsSuccess and IsFailure holds, and the other accessor yields its default |
| FunctionalResult.BindFromIdentitaSinistra | src/CarSharp.Functional/Result.cs:21-30 | binding From(x) to f is f(x) |
| FunctionalResult.BindPropagaFallimento | src/CarSharp.Functional/Result.cs:31 | binding a failure yields the same failure, whatever the function |
| FunctionalResult.BindFromIdentitaDestra | src/CarSharp.Functional/Result.cs:21-31 | binding From to any result gives that result back |
| FunctionalResult.BindAssociativo | src/CarSharp.Functional/Result.cs:26-34 | two successive binds equal one bind of the chained step |
| FunctionalParcoMezzi.Vuoto | src/CarSharp.Functional/ParcoMezzi.cs:20-25 | the empty fleet has a count of 0 |
| FunctionalParcoMezzi.ParcoMezzi.TotaleAuto | src/CarSharp.Functional/ParcoMezzi.cs:25 | the count is the number of cars in the list, each copy counted, and is 0 exactly when the list is empty |
| FunctionalParcoMezzi.AggiungiAuto | src/CarSharp.Functional/ParcoMezzi.cs:37-40 | the new fleet is the old cars in order followed by the added car, with a count one higher; the given fleet is a value and is not changed |
| FunctionalParcoMezzi.RimuoviAuto | src/CarSharp.Functional/ParcoMezzi.cs:47-50 | removing a present car lowers the count by 1 and takes one copy out; removing an absent car returns an equal fleet |
| FunctionalParcoMezzi.RimuoviPrimaOccorrenza | src/CarSharp.Functional/ParcoMezzi.cs:42-50 | only the first value-equal car goes; the cars before and after it stay, in order |
| FunctionalParcoMezzi.RimuoviDopoAggiungi | src/CarSharp.Functional/ParcoMezzi.cs:37-50 | removing a car just added, when it was absent before, gives back a fleet with the same cars in the same order |
| FunctionalParcoMezzi.AggiungiTutteAccoda | src/CarSharp.Functional.Tests/ParcoMezziTests.cs:28-36 | successive additions append the cars in order and raise the count by their number |
| FunctionalParcoMezzi.AggiuntaDiNAuto | src/CarSharp.Functional.Tests/ParcoMezziTests.cs:24-37 | N additions starting from the empty fleet give a count of N |
| FunctionalParcoMezzi.RimozioneDopoNAggiunte | src/CarSharp.Functional.Tests/ParcoMezziTests.cs:39-60 | after N additions from empty, removing any added car gives a count of N - 1 |

## Left out

- Constructors used only by the tests are not modelled: `new Auto(Guid, string)`, `new AutoDisponibile(id, targa)` and `RichiestaNoleggio.Crea`. The source files shown do not declare them.
- The functional fleet names an `Auto` record that is commented out in `src/CarSharp.Functional/Auto.cs`. The model therefore makes that fleet generic over any element type with equality.
- `StatoAuto` is declared as a datatype. No operation uses it.
- `RisultatoBatch`, `DettaglioCostiCliente` and the functional `RisultatoNoleggio`/`RisultatoBatch` are data holders with no logic, so the model leaves them out. Nothing in the code computes totals, discounts or an updated fleet.
- Allocation, batches, settlement and the capacity/price insertion invariant are not implemented by the code, so the model leaves them out too.
- OopParcoMezzi.ParcoMezzi.AggiungiAuto: takes a non-null car. The C# list would also accept `null`, and the model leaves that out.
- OopParcoMezzi.ParcoMezzi.TotaleAuto: is unbounded. The `int` bound on a `List<T>` count is not modelled.
- OopRisultatoNoleggio.Da: gives a value, not an object. Reference identity of the outcome object itself is not modelled, only of the car it holds.
- OopAuto.Auto.constructor: the source's `Auto` declares no members. The daily rate field exists only because `RisultatoNoleggio.Da` reads it.
- FunctionalResult.Result.Value: the caller passes `default(T)`. The model cannot name that default for a generic type.
- The unreachable `_ => throw new NotImplementedException()` arm of `Bind` has no counterpart. Dafny's `match` is exhaustive over the two cases.
- FunctionalParcoMezzi.RimuoviDopoAggiungi: states equality of contents. The model's `==` on fleets compares the cars in order, while the C# record compares its `ImmutableList` by reference, and `Add` followed by `Remove` builds a new list instance. So the C# fleets are equal in content but not under `Equals`.
- OopRichiestaNoleggio.FabbricheConcordi: states equality of contents. The model's requests are values compared by `IdAuto` and `PostiMinimi`, while the C# class compares by reference, so two created requests are never `Equals` in C#.
- OopRisultatoNoleggio.Da: takes a non-null car. `Da(null, c)` throws `NullReferenceException` in C#, and the model leaves that out.
- FunctionalResult.Result.Bind: takes a total function. A C# `Func` passed to `Bind` may throw or return null, and the model leaves that out.
- FunctionalParcoMezzi.ParcoMezzi.TotaleAuto: is unbounded. The `int` bound on an `ImmutableList` count is not modelled.
- `decimal` amounts are exact reals. The code only copies them.
- The structural sharing of `ImmutableList` is not modelled, and neither is the thread-safe initialization of the shared `Vuoto` value. Both lists are sequences.
