/**
  `UserDefaults.standard`, the persistent key-value store both the decision
  engine and the seal keeper read and write. Only the two kinds of value the
  library stores appear: booleans and strings.
*/
module Store {
  import opened Options

  datatype Value = Flag(on: bool) | Text(text: string)

  /** `bool(forKey:)`: true only for a stored `true`; a missing key reads as false. */
  predicate IsSet(entries: map<string, Value>, key: string) {
    key in entries && entries[key] == Flag(true)
  }

  /** `string(forKey:)`: the stored string, or nil. */
  function TextAt(entries: map<string, Value>, key: string): Option<string> {
    if key in entries && entries[key].Text? then Some(entries[key].text) else None
  }

  /** What an operation on the store returns beside the store it leaves behind. */
  datatype Step<+T> = Step(out: T, entries: map<string, Value>)

  class Defaults {
    var entries: map<string, Value>

    constructor (initial: map<string, Value>)
      ensures entries == initial
    {
      entries := initial;
    }

    predicate BoolFor(key: string)
      reads this
    {
      IsSet(entries, key)
    }

    function StringFor(key: string): Option<string>
      reads this
    {
      TextAt(entries, key)
    }

    /** `set(_:forKey:)` */
    method Set(key: string, value: Value)
      modifies this
      ensures entries == old(entries)[key := value]
    {
      entries := entries[key := value];
    }
  }
}
