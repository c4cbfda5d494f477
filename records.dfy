/**
 The records the console rental backend stores and the values its entry
 points hand back: consoles, rentals, the single `NotFound` error, and the
 `Option`/`Result` wrappers of the Rust signatures.
 */
module Records {

  /** Largest value of Rust's `u64`. */
  const U64_MAX: int := 0xFFFF_FFFF_FFFF_FFFF

  /** Rust's `u64`: ids, counters, timestamps and durations. */
  type u64 = x: int | 0 <= x <= 0xFFFF_FFFF_FFFF_FFFF

  /** A rentable console; `occupied` is free-form caller data. */
  datatype Console = Console(id: u64, name: string, occupied: bool)

  /** A rental session; `consoleId` is not checked against the stored consoles. */
  datatype Rental = Rental(id: u64, consoleId: u64, player: string, startTime: u64, duration: u64)

  /** Which table a missing id was looked up in. */
  datatype Kind = ConsoleKind | RentalKind

  /**
   The one error of the backend. The Rust message names the entity kind and
   the id; the model keeps exactly those two facts.
   */
  datatype Error = NotFound(kind: Kind, id: u64)

  datatype Option<T> = None | Some(value: T)

  datatype Result<T> = Ok(value: T) | Err(error: Error)
}
