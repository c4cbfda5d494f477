/**
 Sequences of entry-point calls, executed one after the other as the host
 runs them, and what holds over any such sequence: the invariant survives,
 minted ids are consecutive and never handed out twice, and a deleted
 console id never comes back.
 */
module Traces {
  import opened Records
  import opened Registry

  /** One call of an entry point with its arguments. */
  datatype Call =
    | GetConsoleCall(getConsoleId: u64)
    | GetRentalCall(getRentalId: u64)
    | AddConsoleCall(addName: string)
    | AddRentalCall(addConsoleId: u64, addPlayer: string, addStartTime: u64, addDuration: u64)
    | UpdateConsoleCall(updateConsoleId: u64, updateName: string, updateOccupied: bool)
    | UpdateRentalCall(updateRentalId: u64, updateConsoleIdOf: u64, updatePlayer: string,
                       updateStartTime: u64, updateDuration: u64)
    | DeleteConsoleCall(deleteConsoleId: u64)

  /** What an entry point returned. */
  datatype Reply =
    | ConsoleReply(console: Result<Console>)
    | RentalReply(rental: Result<Rental>)
    | AddedConsole(added: Option<Console>)
    | AddedRental(addedRental: Option<Rental>)
    | DeleteReply(deleted: Result<()>)

  /** How many of the calls are `add_console`. */
  function ConsoleAdds(calls: seq<Call>): nat
  {
    if calls == [] then 0 else (if calls[0].AddConsoleCall? then 1 else 0) + ConsoleAdds(calls[1..])
  }

  /** How many of the calls are `add_rental`. */
  function RentalAdds(calls: seq<Call>): nat
  {
    if calls == [] then 0 else (if calls[0].AddRentalCall? then 1 else 0) + RentalAdds(calls[1..])
  }

  /**
   Every add among the calls finds its counter below `u64::MAX`: room in the
   console counter for each `add_console`, in the rental counter for each
   `add_rental`. Other calls need no room.
   */
  predicate Headroom(s: State, calls: seq<Call>)
  {
    s.consoleIdCounter + ConsoleAdds(calls) <= U64_MAX && s.rentalIdCounter + RentalAdds(calls) <= U64_MAX
  }

  /** One call, dispatched to the entry point it names. */
  function Step(s: State, c: Call): (o: Outcome<Reply>)
    requires c.AddConsoleCall? ==> s.consoleIdCounter < U64_MAX
    requires c.AddRentalCall? ==> s.rentalIdCounter < U64_MAX
    ensures MintedConsole(o.reply) == [] || MintedConsole(o.reply) == [s.consoleIdCounter]
    ensures o.state.consoleIdCounter == s.consoleIdCounter + |MintedConsole(o.reply)|
    ensures |MintedConsole(o.reply)| == if c.AddConsoleCall? then 1 else 0
    ensures MintedRental(o.reply) == [] || MintedRental(o.reply) == [s.rentalIdCounter]
    ensures o.state.rentalIdCounter == s.rentalIdCounter + |MintedRental(o.reply)|
    ensures |MintedRental(o.reply)| == if c.AddRentalCall? then 1 else 0
    ensures Inv(s) ==> Inv(o.state)
    ensures Inv(s) ==> o.state.consoles.Keys <= s.consoles.Keys + {s.consoleIdCounter}
  {
    match c
    case GetConsoleCall(id) => Outcome(s, ConsoleReply(GetConsole(s, id)))
    case GetRentalCall(id) => Outcome(s, RentalReply(GetRental(s, id)))
    case AddConsoleCall(name) =>
      var o := AddConsole(s, name);
      Outcome(o.state, AddedConsole(o.reply))
    case AddRentalCall(consoleId, player, startTime, duration) =>
      var o := AddRental(s, consoleId, player, startTime, duration);
      Outcome(o.state, AddedRental(o.reply))
    case UpdateConsoleCall(id, name, occupied) =>
      var o := UpdateConsole(s, id, name, occupied);
      Outcome(o.state, ConsoleReply(o.reply))
    case UpdateRentalCall(id, consoleId, player, startTime, duration) =>
      var o := UpdateRental(s, id, consoleId, player, startTime, duration);
      Outcome(o.state, RentalReply(o.reply))
    case DeleteConsoleCall(id) =>
      var o := DeleteConsole(s, id);
      Outcome(o.state, DeleteReply(o.reply))
  }

  /** The calls run in order; one reply per call. */
  function Run(s: State, calls: seq<Call>): (o: Outcome<seq<Reply>>)
    requires Headroom(s, calls)
    ensures |o.reply| == |calls|
    ensures s.consoleIdCounter <= o.state.consoleIdCounter
    ensures s.rentalIdCounter <= o.state.rentalIdCounter
    ensures Inv(s) ==> Inv(o.state)
    decreases |calls|
  {
    if calls == [] then Outcome(s, [])
    else
      var first := Step(s, calls[0]);
      var rest := Run(first.state, calls[1..]);
      Outcome(rest.state, [first.reply] + rest.reply)
  }

  /** The console id a reply hands out: one for `add_console`, none otherwise. */
  function MintedConsole(r: Reply): seq<u64>
  {
    match r
    case AddedConsole(Some(console)) => [console.id]
    case _ => []
  }

  /** The rental id a reply hands out: one for `add_rental`, none otherwise. */
  function MintedRental(r: Reply): seq<u64>
  {
    match r
    case AddedRental(Some(rental)) => [rental.id]
    case _ => []
  }

  /** The ids of the consoles `add_console` returned, in order. */
  function ConsoleIdsOf(replies: seq<Reply>): seq<u64>
  {
    if replies == [] then [] else MintedConsole(replies[0]) + ConsoleIdsOf(replies[1..])
  }

  /** The ids of the rentals `add_rental` returned, in order. */
  function RentalIdsOf(replies: seq<Reply>): seq<u64>
  {
    if replies == [] then [] else MintedRental(replies[0]) + RentalIdsOf(replies[1..])
  }

  /**
   Over any run, `add_console` hands out the counter's value, then the next
   one, and so on, and the counter ends exactly past the last id handed out.
   */
  lemma {:induction false} ConsoleIdsConsecutive(s: State, calls: seq<Call>)
    requires Headroom(s, calls)
    ensures var o := Run(s, calls);
            var ids := ConsoleIdsOf(o.reply);
            o.state.consoleIdCounter == s.consoleIdCounter + |ids| &&
            forall i :: 0 <= i < |ids| ==> ids[i] == s.consoleIdCounter + i
    decreases |calls|
  {
    if calls != [] {
      var first := Step(s, calls[0]);
      var rest := Run(first.state, calls[1..]);
      ConsoleIdsConsecutive(first.state, calls[1..]);
      var replies := [first.reply] + rest.reply;
      assert replies[1..] == rest.reply;
      assert ConsoleIdsOf(Run(s, calls).reply) == MintedConsole(first.reply) + ConsoleIdsOf(rest.reply);
    }
  }

  /**
   Over any run, `add_rental` hands out the counter's value, then the next
   one, and so on, and the counter ends exactly past the last id handed out.
   */
  lemma {:induction false} RentalIdsConsecutive(s: State, calls: seq<Call>)
    requires Headroom(s, calls)
    ensures var o := Run(s, calls);
            var ids := RentalIdsOf(o.reply);
            o.state.rentalIdCounter == s.rentalIdCounter + |ids| &&
            forall i :: 0 <= i < |ids| ==> ids[i] == s.rentalIdCounter + i
    decreases |calls|
  {
    if calls != [] {
      var first := Step(s, calls[0]);
      var rest := Run(first.state, calls[1..]);
      RentalIdsConsecutive(first.state, calls[1..]);
      var replies := [first.reply] + rest.reply;
      assert replies[1..] == rest.reply;
      assert RentalIdsOf(Run(s, calls).reply) == MintedRental(first.reply) + RentalIdsOf(rest.reply);
    }
  }

  /**
   Ids are never reused: the console ids minted over a run strictly increase,
   none of them was a key before the run, and each is below the final counter.
   */
  lemma ConsoleIdsNeverReused(s: State, calls: seq<Call>)
    requires Inv(s) && Headroom(s, calls)
    ensures var o := Run(s, calls);
            var ids := ConsoleIdsOf(o.reply);
            (forall i, j :: 0 <= i < j < |ids| ==> ids[i] < ids[j]) &&
            (forall i :: 0 <= i < |ids| ==> ids[i] !in s.consoles && ids[i] < o.state.consoleIdCounter)
  {
    ConsoleIdsConsecutive(s, calls);
  }

  /**
   Ids are never reused: the rental ids minted over a run strictly increase,
   none of them was a key before the run, and each is below the final counter.
   */
  lemma RentalIdsNeverReused(s: State, calls: seq<Call>)
    requires Inv(s) && Headroom(s, calls)
    ensures var o := Run(s, calls);
            var ids := RentalIdsOf(o.reply);
            (forall i, j :: 0 <= i < j < |ids| ==> ids[i] < ids[j]) &&
            (forall i :: 0 <= i < |ids| ==> ids[i] !in s.rentals && ids[i] < o.state.rentalIdCounter)
  {
    RentalIdsConsecutive(s, calls);
  }

  /** From a fresh canister the i-th console minted gets id i: the first is 0. */
  lemma ConsoleIdsFromInit(calls: seq<Call>)
    requires Headroom(Init(), calls)
    ensures var ids := ConsoleIdsOf(Run(Init(), calls).reply);
            forall i :: 0 <= i < |ids| ==> ids[i] == i
  {
    ConsoleIdsConsecutive(Init(), calls);
  }

  /**
   An id that was minted and is no longer a key (its console was deleted)
   never becomes a key again: `add_console` only inserts at fresh ids and
   `update_console` of a missing id changes nothing.
   */
  lemma {:induction false} DeletedConsoleStaysAbsent(s: State, calls: seq<Call>, id: u64)
    requires Inv(s) && Headroom(s, calls)
    requires id < s.consoleIdCounter && id !in s.consoles
    ensures id !in Run(s, calls).state.consoles
    decreases |calls|
  {
    if calls != [] {
      var first := Step(s, calls[0]);
      DeletedConsoleStaysAbsent(first.state, calls[1..], id);
    }
  }
}
