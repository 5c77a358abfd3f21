/**
  `ChateauKeeper`: the per-install seal (an opaque alphanumeric token that the
  engine appends to outbound URLs as `push_id`). It is made once, from random
  choices, kept in the store, and read back on every later request.
  The random choices are inputs here: the length drawn from 10...20 and, for
  each position, the index `randomElement()` picked from the symbol string.
*/
module ChateauKeeper {
  import opened Options
  import opened Store

  /** The store key under which the seal is kept. */
  const RoyalArchivesKey := "versaillesSplendorChateauSeal"

  /** The 62 symbols a seal is made of, in the source's order. */
  const HeraldrySymbols := "abcdefghijklmnopqrstuvwxyz" + "ABCDEFGHIJKLMNOPQRSTUVWXYZ" + "0123456789"

  predicate IsHeraldic(c: char) {
    'a' <= c <= 'z' || 'A' <= c <= 'Z' || '0' <= c <= '9'
  }

  predicate AllHeraldic(s: string) {
    forall i :: 0 <= i < |s| ==> IsHeraldic(s[i])
  }

  lemma HeraldryIsAlphanumeric()
    ensures |HeraldrySymbols| == 62 && AllHeraldic(HeraldrySymbols)
  {
  }

  /** A draw the random source can produce: a length in 10...20 and one symbol index per position. */
  predicate WellDrawn(picks: seq<nat>) {
    10 <= |picks| <= 20 && forall i :: 0 <= i < |picks| ==> picks[i] < |HeraldrySymbols|
  }

  /**
    `forgeRoyalSeal(length:)`: one symbol per position of `0..<length`;
    `compactMap` drops nothing because the symbol string is not empty.
  */
  function ForgeRoyalSeal(length: nat, picks: seq<nat>): (seal: string)
    requires |picks| == length
    requires forall i :: 0 <= i < length ==> picks[i] < |HeraldrySymbols|
    ensures |seal| == length
    ensures AllHeraldic(seal)
  {
    HeraldryIsAlphanumeric();
    seq(length, i requires 0 <= i < length => HeraldrySymbols[picks[i]])
  }

  /** `getUniqueChateauSeal()` on a store: return the kept seal, or forge, keep and return a new one. */
  function UniqueSeal(entries: map<string, Value>, picks: seq<nat>): (s: Step<string>)
    requires WellDrawn(picks)
    ensures TextAt(s.entries, RoyalArchivesKey) == Some(s.out)
    ensures TextAt(entries, RoyalArchivesKey).Some? ==>
              s.out == TextAt(entries, RoyalArchivesKey).value && s.entries == entries
    ensures TextAt(entries, RoyalArchivesKey).None? ==>
              10 <= |s.out| <= 20 && AllHeraldic(s.out) && s.entries == entries[RoyalArchivesKey := Text(s.out)]
  {
    match TextAt(entries, RoyalArchivesKey)
    case Some(preserved) => Step(preserved, entries)
    case None =>
      var seal := ForgeRoyalSeal(|picks|, picks);
      Step(seal, entries[RoyalArchivesKey := Text(seal)])
  }

  /**
    Two calls in a row return the same seal, and the second leaves the store
    as the first left it, whatever the second draw. The seal is not empty
    unless an empty string was already kept under the key.
  */
  lemma SealIsCached(entries: map<string, Value>, first: seq<nat>, second: seq<nat>)
    requires WellDrawn(first) && WellDrawn(second)
    ensures TextAt(entries, RoyalArchivesKey) != Some([]) ==> UniqueSeal(entries, first).out != []
    ensures UniqueSeal(UniqueSeal(entries, first).entries, second) == UniqueSeal(entries, first)
  {
  }

  method GetUniqueChateauSeal(d: Defaults, picks: seq<nat>) returns (seal: string)
    requires WellDrawn(picks)
    modifies d
    ensures Step(seal, d.entries) == UniqueSeal(old(d.entries), picks)
  {
    var preservedSeal := d.StringFor(RoyalArchivesKey);
    if preservedSeal.Some? {
      seal := preservedSeal.value;
    } else {
      seal := ForgeRoyalSeal(|picks|, picks);
      d.Set(RoyalArchivesKey, Text(seal));
    }
  }
}
