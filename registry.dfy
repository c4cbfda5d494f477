/**
 The backend's durable state as a value, and every entry point as a function
 from the state before the call to the state after it and the reply. These
 functions are the specification the imperative `Backend.Canister` is proved
 against, and the ground the call-sequence lemmas of `Traces` stand on.
 */
module Registry {
  import opened Records

  /** The four durable regions: two id counters and two id-keyed maps. */
  datatype State = State(
    consoleIdCounter: u64,
    rentalIdCounter: u64,
    consoles: map<u64, Console>,
    rentals: map<u64, Rental>)

  /** The state after an entry point, with what it returned. */
  datatype Outcome<R> = Outcome(state: State, reply: R)

  /** Every stored console sits under its own id, and that id was minted already. */
  ghost predicate ConsolesKeyed(s: State)
  {
    forall k :: k in s.consoles ==> k < s.consoleIdCounter && s.consoles[k].id == k
  }

  /** Every stored rental sits under its own id, and that id was minted already. */
  ghost predicate RentalsKeyed(s: State)
  {
    forall k :: k in s.rentals ==> k < s.rentalIdCounter && s.rentals[k].id == k
  }

  ghost predicate Inv(s: State)
  {
    ConsolesKeyed(s) && RentalsKeyed(s)
  }

  /** Both counters initialised to 0 and both maps empty. */
  function Init(): (s: State)
    ensures s.consoleIdCounter == 0 && s.rentalIdCounter == 0
    ensures Inv(s) && s.consoles == map[] && s.rentals == map[]
  {
    State(0, 0, map[], map[])
  }

  /** `_get_console`: the console stored under `id`, if any. */
  function FindConsole(consoles: map<u64, Console>, id: u64): (o: Option<Console>)
    ensures o.Some? <==> id in consoles
    ensures o.Some? ==> o.value == consoles[id]
  {
    if id in consoles then Some(consoles[id]) else None
  }

  /** `_get_rental`: the rental stored under `id`, if any. */
  function FindRental(rentals: map<u64, Rental>, id: u64): (o: Option<Rental>)
    ensures o.Some? <==> id in rentals
    ensures o.Some? ==> o.value == rentals[id]
  {
    if id in rentals then Some(rentals[id]) else None
  }

  /** `get_console`: a query, so the state is left as it is. */
  function GetConsole(s: State, id: u64): (r: Result<Console>)
    ensures r.Ok? <==> id in s.consoles
    ensures r.Ok? ==> r.value == s.consoles[id]
    ensures r.Err? ==> r.error == NotFound(ConsoleKind, id)
    ensures Inv(s) && r.Ok? ==> r.value.id == id
  {
    match FindConsole(s.consoles, id)
    case Some(console) => Ok(console)
    case None => Err(NotFound(ConsoleKind, id))
  }

  /** `get_rental`: a query, so the state is left as it is. */
  function GetRental(s: State, id: u64): (r: Result<Rental>)
    ensures r.Ok? <==> id in s.rentals
    ensures r.Ok? ==> r.value == s.rentals[id]
    ensures r.Err? ==> r.error == NotFound(RentalKind, id)
    ensures Inv(s) && r.Ok? ==> r.value.id == id
  {
    match FindRental(s.rentals, id)
    case Some(rental) => Ok(rental)
    case None => Err(NotFound(RentalKind, id))
  }

  /**
   `add_console`: the id is the counter's value before the increment (what
   `Cell::set` hands back), and the new console is stored under it.
   */
  function AddConsole(s: State, name: string): (o: Outcome<Option<Console>>)
    requires s.consoleIdCounter < U64_MAX
    ensures o.reply == Some(Console(s.consoleIdCounter, name, true))
    ensures o.state.consoleIdCounter == s.consoleIdCounter + 1
    ensures o.state.consoles == s.consoles[s.consoleIdCounter := o.reply.value]
    ensures o.state.rentalIdCounter == s.rentalIdCounter && o.state.rentals == s.rentals
    ensures Inv(s) ==> Inv(o.state)
    ensures Inv(s) ==> s.consoleIdCounter !in s.consoles && |o.state.consoles| == |s.consoles| + 1
  {
    var id := s.consoleIdCounter;
    var console := Console(id, name, true);
    Outcome(s.(consoleIdCounter := id + 1, consoles := s.consoles[console.id := console]), Some(console))
  }

  /**
   `add_rental`: mints from the rental counter only; `consoleId` is stored
   whether or not a console has that id.
   */
  function AddRental(s: State, consoleId: u64, player: string, startTime: u64, duration: u64)
    : (o: Outcome<Option<Rental>>)
    requires s.rentalIdCounter < U64_MAX
    ensures o.reply == Some(Rental(s.rentalIdCounter, consoleId, player, startTime, duration))
    ensures o.state.rentalIdCounter == s.rentalIdCounter + 1
    ensures o.state.rentals == s.rentals[s.rentalIdCounter := o.reply.value]
    ensures o.state.consoleIdCounter == s.consoleIdCounter && o.state.consoles == s.consoles
    ensures Inv(s) ==> Inv(o.state)
    ensures Inv(s) ==> s.rentalIdCounter !in s.rentals && |o.state.rentals| == |s.rentals| + 1
  {
    var id := s.rentalIdCounter;
    var rental := Rental(id, consoleId, player, startTime, duration);
    Outcome(s.(rentalIdCounter := id + 1, rentals := s.rentals[rental.id := rental]), Some(rental))
  }

  /**
   `update_console`: overwrites `name` and `occupied` of the stored console
   and re-inserts it under the id it carries.
   */
  function UpdateConsole(s: State, id: u64, name: string, occupied: bool): (o: Outcome<Result<Console>>)
    ensures o.reply.Err? <==> id !in s.consoles
    ensures o.reply.Err? ==> o.reply.error == NotFound(ConsoleKind, id) && o.state == s
    ensures o.reply.Ok? ==> o.reply.value == s.consoles[id].(name := name, occupied := occupied)
    ensures o.state.consoleIdCounter == s.consoleIdCounter
    ensures o.state.rentalIdCounter == s.rentalIdCounter && o.state.rentals == s.rentals
    ensures Inv(s) && o.reply.Ok? ==>
              o.reply.value == Console(id, name, occupied) &&
              o.state.consoles == s.consoles[id := o.reply.value]
    ensures Inv(s) ==> Inv(o.state) && o.state.consoles.Keys == s.consoles.Keys
  {
    match FindConsole(s.consoles, id)
    case Some(console) =>
      var updated := console.(name := name, occupied := occupied);
      Outcome(s.(consoles := s.consoles[updated.id := updated]), Ok(updated))
    case None =>
      Outcome(s, Err(NotFound(ConsoleKind, id)))
  }

  /**
   `update_rental`: overwrites every field but `id` of the stored rental and
   re-inserts it under the id it carries; `consoleId` is not checked.
   */
  function UpdateRental(s: State, id: u64, consoleId: u64, player: string, startTime: u64, duration: u64)
    : (o: Outcome<Result<Rental>>)
    ensures o.reply.Err? <==> id !in s.rentals
    ensures o.reply.Err? ==> o.reply.error == NotFound(RentalKind, id) && o.state == s
    ensures o.reply.Ok? ==>
              o.reply.value ==
              s.rentals[id].(consoleId := consoleId, player := player, startTime := startTime, duration := duration)
    ensures o.state.rentalIdCounter == s.rentalIdCounter
    ensures o.state.consoleIdCounter == s.consoleIdCounter && o.state.consoles == s.consoles
    ensures Inv(s) && o.reply.Ok? ==>
              o.reply.value == Rental(id, consoleId, player, startTime, duration) &&
              o.state.rentals == s.rentals[id := o.reply.value]
    ensures Inv(s) ==> Inv(o.state) && o.state.rentals.Keys == s.rentals.Keys
  {
    match FindRental(s.rentals, id)
    case Some(rental) =>
      var updated := rental.(consoleId := consoleId, player := player, startTime := startTime, duration := duration);
      Outcome(s.(rentals := s.rentals[updated.id := updated]), Ok(updated))
    case None =>
      Outcome(s, Err(NotFound(RentalKind, id)))
  }

  /** `delete_console`: removes the key; reports whether it was there. */
  function DeleteConsole(s: State, id: u64): (o: Outcome<Result<()>>)
    ensures o.reply.Ok? <==> id in s.consoles
    ensures o.reply.Err? ==> o.reply.error == NotFound(ConsoleKind, id)
    ensures id !in o.state.consoles
    ensures forall k :: k != id ==> FindConsole(o.state.consoles, k) == FindConsole(s.consoles, k)
    ensures o.state.consoleIdCounter == s.consoleIdCounter
    ensures o.state.rentalIdCounter == s.rentalIdCounter && o.state.rentals == s.rentals
    ensures Inv(s) ==> Inv(o.state)
  {
    var removed := FindConsole(s.consoles, id);
    var next := s.(consoles := s.consoles - {id});
    match removed
    case Some(_) => Outcome(next, Ok(()))
    case None => Outcome(next, Err(NotFound(ConsoleKind, id)))
  }

  /** A console just added is what `get_console` returns for its id. */
  lemma GetConsoleAfterAdd(s: State, name: string)
    requires s.consoleIdCounter < U64_MAX
    ensures var o := AddConsole(s, name);
            GetConsole(o.state, o.reply.value.id) == Ok(Console(s.consoleIdCounter, name, true))
  {
  }

  /** After a successful `update_console`, `get_console` returns the updated record. */
  lemma GetConsoleAfterUpdate(s: State, id: u64, name: string, occupied: bool)
    requires Inv(s) && id in s.consoles
    ensures GetConsole(UpdateConsole(s, id, name, occupied).state, id) == Ok(Console(id, name, occupied))
  {
  }

  /** A rental just added is what `get_rental` returns for its id. */
  lemma GetRentalAfterAdd(s: State, consoleId: u64, player: string, startTime: u64, duration: u64)
    requires s.rentalIdCounter < U64_MAX
    ensures var o := AddRental(s, consoleId, player, startTime, duration);
            GetRental(o.state, o.reply.value.id) ==
            Ok(Rental(s.rentalIdCounter, consoleId, player, startTime, duration))
  {
  }

  /** After a successful `update_rental`, `get_rental` returns the updated record. */
  lemma GetRentalAfterUpdate(s: State, id: u64, consoleId: u64, player: string, startTime: u64, duration: u64)
    requires Inv(s) && id in s.rentals
    ensures GetRental(UpdateRental(s, id, consoleId, player, startTime, duration).state, id) ==
            Ok(Rental(id, consoleId, player, startTime, duration))
  {
  }

  /** After `delete_console(id)`, `get_console(id)` reports `NotFound`, whatever came before. */
  lemma GetConsoleAfterDelete(s: State, id: u64)
    ensures GetConsole(DeleteConsole(s, id).state, id) == Err(NotFound(ConsoleKind, id))
  {
  }
}
