/** Everything the core consults but does not compute itself: Python's
    `float()` and `datetime.strptime`, the wall clock, the real power
    `x ** 0.75`, the breed table, the place search and the public base URL.
    Each is a parameter, so every property proved holds for all of them. */
module Environment {
  import opened Wrappers

  datatype Env = Env(
    /** Python `float(s)`: `None` when it raises `ValueError`. */
    parseFloat: string -> Option<real>,
    /** Whether `datetime.strptime(s, '%Y-%m-%d')` succeeds. */
    validDate: string -> bool,
    /** `(datetime.now() - strptime(s)).days` for a valid date `s`. */
    daysSince: string -> int,
    /** `datetime.now().strftime('%Y-%m-%d')`. */
    today: string,
    /** The real power `w ** 0.75`. */
    pow34: real -> real,
    /** The formatted breed row for a breed name, if the breed table has one. */
    breedInfo: string -> Option<string>,
    /** The reply built from a place search around the current location;
        `None` when the lookup raises. */
    currentLocationReply: Option<string>,
    /** The reply built from a place search around a named landmark; `None`
        when the lookup raises. */
    landmarkReply: string -> Option<string>,
    /** Python `str.title()`. */
    titleCase: string -> string,
    /** The public base URL of the web forms. */
    baseUrl: string
  )
}
