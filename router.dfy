/** A call to react-router's `navigate(to, { replace })`. */
module Router {
  datatype Navigation = Navigation(to: string, replace: bool)
}
