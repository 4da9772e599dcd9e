/** The browser built-ins the components call, whose behaviour this model does not define. Each is a
    field of `Builtins`, so every member that depends on one takes it as a parameter and holds for
    every possible implementation of it. */
module Runtime {
  import opened Wrappers

  datatype Builtins = Builtins(
    /** `parseFloat(s)`; `None` stands for NaN. */
    parseFloat: string -> Option<real>,
    /** `new Date(s).getTime()` in milliseconds since the epoch; `None` stands for an Invalid Date. */
    parseDate: string -> Option<int>,
    /** The local calendar day of an instant given in milliseconds, counted in days from
        1 January 1970 (a Thursday) in the user's time zone. */
    localDay: int -> int,
    /** `toLocaleDateString('en-US', { month: 'short', day: 'numeric' })` of a local day ("Jan 4"). */
    monthDay: int -> string,
    /** `toLocaleDateString('en-US', { year: 'numeric', month: 'short' })` of a local day ("Jan 2025"). */
    yearMonth: int -> string)
}
