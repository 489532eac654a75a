/** What the components share: a value that may be missing, instants, and how texts begin and end. */
module Basics {
  datatype Option<+T> = None | Some(value: T)

  /** Instants, in nanoseconds; ZERO_TIME is Go's zero time.Time. */
  type Time = int
  const ZERO_TIME: Time := 0

  predicate HasPrefix(s: string, p: string) { |p| <= |s| && s[..|p|] == p }
  predicate HasSuffix(s: string, p: string) { |p| <= |s| && s[|s| - |p|..] == p }
}
