/** The conversions of Go's standard library that the configuration and the prompt rely on, as parameters. */
module GoText {
  import opened SessionTypes

  /** strings.ToUpper, strings.ToLower, strings.TrimSpace, strconv.Atoi and time.ParseDuration. */
  datatype Lib = Lib(
    upper: string -> string,
    lower: string -> string,
    trim: string -> string,
    atoi: string -> Option<int>,
    duration: string -> Option<int>)
}
