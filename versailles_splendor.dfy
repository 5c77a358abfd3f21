/**
  `VersaillesSplendor`: the library's public entry points that reach the
  engine and the seal keeper. Both forward to them unchanged; the facade's
  default timeout is 10 seconds where the engine's own is 12.
*/
module VersaillesSplendor {
  import opened Options
  import opened Store
  import ChateauKeeper
  import RoyalDecree

  /** `VersaillesSplendor.examineDistantRealms(url:targetDate:deviceCheck:timeout:cacheKey:)` */
  method ExamineDistantRealms(
    d: Defaults, p: RoyalDecree.Platform, world: RoyalDecree.Circumstances,
    url: string, targetDate: int, deviceCheck: bool := true, timeout: real := 10.0, cacheKey: Option<string> := None)
    returns (verdict: RoyalDecree.DecreeVerdict)
    requires ChateauKeeper.WellDrawn(world.sealPicks)
    modifies d
    ensures Step(verdict, d.entries) ==
            RoyalDecree.Decree(old(d.entries), p, RoyalDecree.Call(url, targetDate, deviceCheck, timeout, cacheKey, world))
  {
    verdict := RoyalDecree.ExamineDistantRealms(d, p, world, url, targetDate, deviceCheck, timeout, cacheKey);
  }

  /** `VersaillesSplendor.obtainChateauSeal()` */
  method ObtainChateauSeal(d: Defaults, picks: seq<nat>) returns (seal: string)
    requires ChateauKeeper.WellDrawn(picks)
    modifies d
    ensures Step(seal, d.entries) == ChateauKeeper.UniqueSeal(old(d.entries), picks)
  {
    seal := ChateauKeeper.GetUniqueChateauSeal(d, picks);
  }
}
