/**
 The canister's process-wide state as one object: the two id counters and the
 two id-keyed maps are fields that the update entry points change in place.
 Each method is proved against the matching function of `Registry`, whose
 contracts carry the properties.
 */
module Backend {
  import opened Records
  import Registry

  class Canister {
    /** `CONSOLE_ID_COUNTER`: the next console id to hand out. */
    var consoleIdCounter: u64
    /** `RENTAL_ID_COUNTER`: the next rental id to hand out. */
    var rentalIdCounter: u64
    /** `CONSOLES`. */
    var consoles: map<u64, Console>
    /** `RENTALS`. */
    var rentals: map<u64, Rental>

    /** The four fields as one value. */
    ghost function State(): Registry.State
      reads this
    {
      Registry.State(consoleIdCounter, rentalIdCounter, consoles, rentals)
    }

    ghost predicate Valid()
      reads this
    {
      Registry.Inv(State())
    }

    /** Both counters created at 0 and both maps empty. */
    constructor ()
      ensures State() == Registry.Init() && Valid()
    {
      consoleIdCounter := 0;
      rentalIdCounter := 0;
      consoles := map[];
      rentals := map[];
    }

    /** `get_console`. */
    method GetConsole(id: u64) returns (r: Result<Console>)
      ensures r == Registry.GetConsole(State(), id)
      ensures r.Ok? <==> id in consoles
    {
      match Registry.FindConsole(consoles, id)
      case Some(console) => r := Ok(console);
      case None => r := Err(NotFound(ConsoleKind, id));
    }

    /** `get_rental`. */
    method GetRental(id: u64) returns (r: Result<Rental>)
      ensures r == Registry.GetRental(State(), id)
      ensures r.Ok? <==> id in rentals
    {
      match Registry.FindRental(rentals, id)
      case Some(rental) => r := Ok(rental);
      case None => r := Err(NotFound(RentalKind, id));
    }

    /**
     `Cell::set` on the console counter: stores `value` and returns the value
     it replaced.
     */
    method SetConsoleIdCounter(value: u64) returns (previous: u64)
      modifies this`consoleIdCounter
      ensures consoleIdCounter == value && previous == old(consoleIdCounter)
    {
      previous := consoleIdCounter;
      consoleIdCounter := value;
    }

    /**
     `Cell::set` on the rental counter: stores `value` and returns the value
     it replaced.
     */
    method SetRentalIdCounter(value: u64) returns (previous: u64)
      modifies this`rentalIdCounter
      ensures rentalIdCounter == value && previous == old(rentalIdCounter)
    {
      previous := rentalIdCounter;
      rentalIdCounter := value;
    }

    /** `do_insert_console`: inserts or overwrites at the console's own id. */
    method DoInsertConsole(console: Console)
      modifies this`consoles
      ensures consoles == old(consoles)[console.id := console]
    {
      consoles := consoles[console.id := console];
    }

    /** `do_insert_rental`: inserts or overwrites at the rental's own id. */
    method DoInsertRental(rental: Rental)
      modifies this`rentals
      ensures rentals == old(rentals)[rental.id := rental]
    {
      rentals := rentals[rental.id := rental];
    }

    /** `add_console`. */
    method AddConsole(name: string) returns (r: Option<Console>)
      requires consoleIdCounter < U64_MAX
      modifies this`consoleIdCounter, this`consoles
      ensures Registry.Outcome(State(), r) == Registry.AddConsole(old(State()), name)
      ensures r.Some? && r.value.id == old(consoleIdCounter)
      ensures old(Valid()) ==> r.value.id !in old(consoles) && Valid()
    {
      var currentValue := consoleIdCounter;
      var id := SetConsoleIdCounter(currentValue + 1);
      var console := Console(id, name, true);
      DoInsertConsole(console);
      r := Some(console);
    }

    /** `add_rental`; `consoleId` is stored without looking at `consoles`. */
    method AddRental(consoleId: u64, player: string, startTime: u64, duration: u64) returns (r: Option<Rental>)
      requires rentalIdCounter < U64_MAX
      modifies this`rentalIdCounter, this`rentals
      ensures Registry.Outcome(State(), r) == Registry.AddRental(old(State()), consoleId, player, startTime, duration)
      ensures r.Some? && r.value.id == old(rentalIdCounter)
      ensures old(Valid()) ==> r.value.id !in old(rentals) && Valid()
    {
      var currentValue := rentalIdCounter;
      var id := SetRentalIdCounter(currentValue + 1);
      var rental := Rental(id, consoleId, player, startTime, duration);
      DoInsertRental(rental);
      r := Some(rental);
    }

    /** `update_console`: the fetched record is changed field by field, then re-inserted. */
    method UpdateConsole(id: u64, name: string, occupied: bool) returns (r: Result<Console>)
      modifies this`consoles
      ensures Registry.Outcome(State(), r) == Registry.UpdateConsole(old(State()), id, name, occupied)
      ensures r.Err? <==> id !in old(consoles)
      ensures old(Valid()) ==> Valid()
    {
      match Registry.FindConsole(consoles, id)
      case Some(console) =>
        var updated := console;
        updated := updated.(name := name);
        updated := updated.(occupied := occupied);
        DoInsertConsole(updated);
        r := Ok(updated);
      case None =>
        r := Err(NotFound(ConsoleKind, id));
    }

    /** `update_rental`: the fetched record is changed field by field, then re-inserted. */
    method UpdateRental(id: u64, consoleId: u64, player: string, startTime: u64, duration: u64)
      returns (r: Result<Rental>)
      modifies this`rentals
      ensures Registry.Outcome(State(), r) ==
              Registry.UpdateRental(old(State()), id, consoleId, player, startTime, duration)
      ensures r.Err? <==> id !in old(rentals)
      ensures old(Valid()) ==> Valid()
    {
      match Registry.FindRental(rentals, id)
      case Some(rental) =>
        var updated := rental;
        updated := updated.(consoleId := consoleId);
        updated := updated.(player := player);
        updated := updated.(startTime := startTime);
        updated := updated.(duration := duration);
        DoInsertRental(updated);
        r := Ok(updated);
      case None =>
        r := Err(NotFound(RentalKind, id));
    }

    /** `delete_console`: `remove` hands back the old record, if there was one. */
    method DeleteConsole(id: u64) returns (r: Result<()>)
      modifies this`consoles
      ensures Registry.Outcome(State(), r) == Registry.DeleteConsole(old(State()), id)
      ensures r.Ok? <==> id in old(consoles)
      ensures old(Valid()) ==> Valid()
    {
      var removed := Registry.FindConsole(consoles, id);
      consoles := consoles - {id};
      match removed
      case Some(_) => r := Ok(());
      case None => r := Err(NotFound(ConsoleKind, id));
    }
  }
}
