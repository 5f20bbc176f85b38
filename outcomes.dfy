/** Failure-carrying values standing for the exceptions the facade can throw. */
module Outcomes {

  /** The exceptions that can leave a facade call. */
  datatype Error =
    | BadInput             // U2fBadInputException
    | NoDevicesRegistered  // NoDevicesRegisteredException
    | DeviceCompromised    // DeviceCompromisedException
    | NoSuchElement        // java.util.NoSuchElementException, thrown by Iterables.find

  datatype Option<+T> = None | Some(value: T)

  datatype Result<+T> = Ok(value: T) | Err(error: Error)

  /** The outcome of an operation that returns nothing (a Java `void` that may throw). */
  datatype Outcome = Pass | Fail(error: Error)
}
