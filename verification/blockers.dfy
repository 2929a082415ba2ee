/** Lists of blockers: the guards append a name for each condition that stands in the way. */
module Blockers {

  function Block(c: bool, name: string): seq<string> {
    if c then [name] else []
  }
}
