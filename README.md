# Console rental backend: a Dafny model

This project models the backend canister of a console game-cafe rental service.
The canister keeps four pieces of durable state:

- a console id counter;
- a rental id counter;
- a map from id to `Console` (`id`, `name`, `occupied`);
- a map from id to `Rental` (`id`, `consoleId`, `player`, `startTime`, `duration`).

Its entry points are `get_console`, `get_rental`, `add_console`, `add_rental`,
`update_console`, `update_rental` and `delete_console`. The only error is `NotFound`.

Files:

- `records.dfy` (module `Records`) holds the records, Rust's `u64` as a subset of `int`, the error, and the `Option`/`Result` wrappers.
- `registry.dfy` (module `Registry`) holds the state as a value and the invariant `Inv`. `Inv` says every stored record sits under its own id, and that id is below its counter. Each entry point is a function from the state before a call to the state after it plus the reply. `FindConsole`/`FindRental` model `_get_console`/`_get_rental`.
- The `Registry` functions and the `Canister` methods define each entry point twice on purpose. The functions are the specification, and the call-sequence lemmas need them because a lemma cannot call a method. The methods are the code, changing fields in place as the Rust does, and are proved equal to the functions.
- `traces.dfy` (module `Traces`) runs any sequence of calls. It proves that minted ids are consecutive, that ids are never reused, and that a deleted console id never comes back.
- `backend.dfy` (module `Backend`) is the imperative rendering: class `Canister` has the four fields. Its methods read and set the counter, insert into the maps, and change a fetched record field by field. Each entry-point method is proved to produce exactly the state and reply of the matching `Registry` function. The other methods model the helpers those entry points call: `Cell::set` and `do_insert_*`.

The minted id is the counter's value *before* the increment. The code reads `current_value`, calls `Cell::set(current_value + 1)` and uses the value `set` returns. In ic-stable-structures that is the previous value. So the first console and the first rental both get id 0, and the counter always holds the next id to hand out. Were `set` to return the new value, the first id would be 1; the model follows `set` returning the previous value. The `Cell` library itself is not part of this model; `SetConsoleIdCounter`/`SetRentalIdCounter` state the assumed behaviour of `set`.

`update_console`/`update_rental` re-insert the record under the id it carries, not under the argument. Under `Inv` the two are the same, and the contracts state it that way.

The `Get*After*` lemmas are corollaries of the entry-point contracts. They state each lookup-after-change round trip as one fact.

## Model

| member | source | states |
|---|---|---|
| `Registry.Init` | src/icp_rust_boilerplate_backend/src/lib.rs:63-81 | both counters start at 0 and both maps start empty; the invariant holds of this start state |
| `Registry.FindConsole` | src/icp_rust_boilerplate_backend/src/lib.rs:94-96 | `Some` exactly when `id` is a key of the console map, and then the stored console |
| `Registry.FindRental` | src/icp_rust_boilerplate_backend/src/lib.rs:108-110 | `Some` exactly when `id` is a key of the rental map, and then the stored rental |
| `Registry.GetConsole` | src/icp_rust_boilerplate_backend/src/lib.rs:84-96 | `Ok` exactly when `id` is a key, with the stored console; otherwise `NotFound(ConsoleKind, id)`; under the invariant the returned console's id is `id` |
| `Registry.GetRental` | src/icp_rust_boilerplate_backend/src/lib.rs:98-110 | `Ok` exactly when `id` is a key, with the stored rental; otherwise `NotFound(RentalKind, id)`; under the invariant the returned rental's id is `id` |
| `Registry.AddConsole` | src/icp_rust_boilerplate_backend/src/lib.rs:112-131 | always `Some(Console(counter, name, true))`; console counter advances by one; the console is stored at its id; the rental counter and rentals are untouched; the invariant is kept, the new id was not a key and the map grows by one |
| `Registry.AddRental` | src/icp_rust_boilerplate_backend/src/lib.rs:133-154 | always `Some` of the rental with the given fields and the counter as id, whatever `consoleId` is; rental counter advances by one; consoles untouched; the invariant is kept, the new id was not a key and the map grows by one |
| `Registry.UpdateConsole` | src/icp_rust_boilerplate_backend/src/lib.rs:156-169 | `NotFound` exactly when `id` is absent, and then the state is unchanged; otherwise the stored console with new `name`/`occupied`, stored at `id`, same id, no other key, counters or rentals changed; the invariant is kept |
| `Registry.UpdateRental` | src/icp_rust_boilerplate_backend/src/lib.rs:171-186 | `NotFound` exactly when `id` is absent, and then the state is unchanged; otherwise the rental with new `consoleId`, `player`, `startTime`, `duration` and the same id, stored at `id`, nothing else changed; the invariant is kept |
| `Registry.DeleteConsole` | src/icp_rust_boilerplate_backend/src/lib.rs:188-196 | `Ok` exactly when `id` was a key; afterwards `id` is not a key, every other console lookup is unchanged, counters and rentals unchanged; the invariant is kept |
| `Registry.GetConsoleAfterAdd` | src/icp_rust_boilerplate_backend/src/lib.rs:112-131 | `get_console` of a just-added console's id returns that console unchanged |
| `Registry.GetConsoleAfterUpdate` | src/icp_rust_boilerplate_backend/src/lib.rs:156-169 | after a successful update, `get_console(id)` returns the updated record with id `id` |
| `Registry.GetRentalAfterAdd` | src/icp_rust_boilerplate_backend/src/lib.rs:133-154 | `get_rental` of a just-added rental's id returns that rental unchanged |
| `Registry.GetRentalAfterUpdate` | src/icp_rust_boilerplate_backend/src/lib.rs:171-186 | after a successful update, `get_rental(id)` returns the updated record with id `id` |
| `Registry.GetConsoleAfterDelete` | src/icp_rust_boilerplate_backend/src/lib.rs:188-196 | after `delete_console(id)`, `get_console(id)` returns `NotFound(ConsoleKind, id)` |
| `Traces.Step` | src/icp_rust_boilerplate_backend/src/lib.rs:84-196 | any single call is accepted unless it is an add whose counter is at `u64::MAX`; only `add_console` hands out a console id and only `add_rental` a rental id, each equal to its counter, and each counter moves exactly past what was handed out; it keeps the invariant and adds no console key other than the counter's value |
| `Traces.Run` | src/icp_rust_boilerplate_backend/src/lib.rs:84-196 | a sequence of calls gives one reply per call, never lowers a counter and keeps the invariant |
| `Traces.ConsoleIdsConsecutive` | src/icp_rust_boilerplate_backend/src/lib.rs:114-119 | over any sequence of calls, the i-th console id handed out is the starting counter plus i, and the counter ends just past the last one |
| `Traces.RentalIdsConsecutive` | src/icp_rust_boilerplate_backend/src/lib.rs:135-140 | over any sequence of calls, the i-th rental id handed out is the starting counter plus i, and the counter ends just past the last one |
| `Traces.ConsoleIdsNeverReused` | src/icp_rust_boilerplate_backend/src/lib.rs:114-130 | console ids handed out strictly increase, none was a key before, each is below the final counter, even with deletes in between |
| `Traces.RentalIdsNeverReused` | src/icp_rust_boilerplate_backend/src/lib.rs:135-153 | rental ids handed out strictly increase, none was a key before, each is below the final counter |
| `Traces.ConsoleIdsFromInit` | src/icp_rust_boilerplate_backend/src/lib.rs:63-66 | from a fresh canister the i-th console handed out has id i |
| `Traces.DeletedConsoleStaysAbsent` | src/icp_rust_boilerplate_backend/src/lib.rs:188-196 | a minted console id that is no longer a key stays absent through any later sequence of calls |
| `Backend.Canister.constructor` | src/icp_rust_boilerplate_backend/src/lib.rs:58-82 | the four fields start as `Registry.Init`, and the invariant holds |
| `Backend.Canister.GetConsole` | src/icp_rust_boilerplate_backend/src/lib.rs:84-96 | changes nothing and returns `Registry.GetConsole` of the current state: `Ok` exactly when `id` is a key |
| `Backend.Canister.GetRental` | src/icp_rust_boilerplate_backend/src/lib.rs:98-110 | changes nothing and returns `Registry.GetRental` of the current state: `Ok` exactly when `id` is a key |
| `Backend.Canister.SetConsoleIdCounter` | src/icp_rust_boilerplate_backend/src/lib.rs:114-119 | `Cell::set` on the console counter: stores the new value and returns the previous one; touches nothing else |
| `Backend.Canister.SetRentalIdCounter` | src/icp_rust_boilerplate_backend/src/lib.rs:135-140 | `Cell::set` on the rental counter: stores the new value and returns the previous one; touches nothing else |
| `Backend.Canister.DoInsertConsole` | src/icp_rust_boilerplate_backend/src/lib.rs:129-131 | inserts or overwrites the console at its own id; touches nothing else |
| `Backend.Canister.DoInsertRental` | src/icp_rust_boilerplate_backend/src/lib.rs:152-154 | inserts or overwrites the rental at its own id; touches nothing else |
| `Backend.Canister.AddConsole` | src/icp_rust_boilerplate_backend/src/lib.rs:112-127 | new state and reply are those of `Registry.AddConsole`; the id is the old counter, was not a key, and the invariant is kept |
| `Backend.Canister.AddRental` | src/icp_rust_boilerplate_backend/src/lib.rs:133-150 | new state and reply are those of `Registry.AddRental`; the id is the old counter, was not a key, and the invariant is kept |
| `Backend.Canister.UpdateConsole` | src/icp_rust_boilerplate_backend/src/lib.rs:156-169 | new state and reply are those of `Registry.UpdateConsole`; `NotFound` exactly when `id` was absent; the invariant is kept |
| `Backend.Canister.UpdateRental` | src/icp_rust_boilerplate_backend/src/lib.rs:171-186 | new state and reply are those of `Registry.UpdateRental`; `NotFound` exactly when `id` was absent; the invariant is kept |
| `Backend.Canister.DeleteConsole` | src/icp_rust_boilerplate_backend/src/lib.rs:188-196 | new state and reply are those of `Registry.DeleteConsole`; `Ok` exactly when `id` was a key; the invariant is kept |

## Left out

- Candid `Encode!`/`Decode!` in the `Storable` impls and the 1024-byte `MAX_SIZE` bound (lib.rs:28-56): a foreign serialisation library; the encoded size of a record cannot be stated from this code.
- `MemoryManager`, `MemoryId` regions, `VirtualMemory`, `DefaultMemoryImpl`, `thread_local!`/`RefCell`: durable-memory plumbing, rendered as the four fields of `Backend.Canister`. Reloading existing stable memory on upgrade is not modelled; the constructor starts empty.
- `ic_cdk::query`/`ic_cdk::update` attributes, `export_candid!` and the unused `time` import: host runtime glue. The host runs one call at a time to completion, which is what the sequential `Traces.Run` assumes.
- The `NotFound` message text: the model keeps only the entity kind and the id it names.
- Backend.Canister.AddConsole: requires the console counter below `u64::MAX`, so the overflow of `current_value + 1` (a panic or a wrap-around, depending on the build) is not modelled; the same holds for `Registry.AddConsole`.
- Backend.Canister.AddRental: requires the rental counter below `u64::MAX`, for the same reason; the same holds for `Registry.AddRental`.
- Traces.Run: requires room in the console counter for each `add_console` call and in the rental counter for each `add_rental` call, for the same reason; other calls need no room.
- The `.expect` panics when a counter cell cannot be created or set (lib.rs:65, 70, 119, 140): the library's failure paths are not modelled.
- `Rental` has no delete entry point and `occupied` is never changed by a rental; the model adds neither.
