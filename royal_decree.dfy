/**
  `RoyalDecree`: the gating engine. `examineDistantRealms` decides whether to
  reveal a remote destination ("distant realms") or keep the local experience
  ("the chateau"), and latches that decision in the store under keys built
  from the caller's cache key (or the URL) so that later calls replay it.

  Each operation appears twice: a function over the store's entries that says
  what the operation returns and which store it leaves (`Decree`, `Expedite`,
  `SealedExpedite`, `Revalidate`, `Reroute`), and a method that performs it
  step by step on a `Defaults` object, as the Swift code does, proved to agree
  with that function. The properties of the engine are proved about the
  functions (here and in `RoyalDecreeProperties`).

  The outside world is an input: whether the path monitor reported a usable
  network within its 2-second wait, the clock, the device model, the random
  draw for a new seal, and a `server` that says what each request URL
  produced by the end of its wait.
*/
module RoyalDecree {
  import opened Options
  import opened Decimal
  import opened Query
  import opened Store
  import ChateauKeeper

  datatype DecreeVerdict = DecreeVerdict(
    shallRevealDistantRealms: bool,
    destinationManor: string,
    royalJustification: string)

  /** What a URL session task had produced when the wait on it ended. */
  datatype Reply =
    | TransportError(description: string)            // the completion handler got an error
    | Response(statusCode: int, lastRedirect: string) // an HTTP response; the redirect scribe's record, "" if none
    | NonHttpResponse                                 // a response that is not an HTTPURLResponse
    | NoReply                                         // the wait timed out before the handler ran

  /** Foundation behaviour taken as given: which strings `URL(string:)` accepts, and `String.hash`. */
  datatype Platform = Platform(urlParses: string -> bool, hash: string -> int)

  /** What one evaluation learns from the outside world. */
  datatype Circumstances = Circumstances(
    courierPathsAvailable: bool,   // the path monitor reported `.satisfied` within 2 seconds
    now: int,                      // `Date()`
    deviceModel: string,           // `UIDevice.current.model`
    sealPicks: seq<nat>,           // the draw `forgeRoyalSeal` uses if no seal is kept yet
    server: string -> Reply)       // the outcome of a request to each URL

  /** The arguments of one `examineDistantRealms` call, with its circumstances. */
  datatype Call = Call(
    url: string,
    targetDate: int,
    deviceCheck: bool,
    timeout: real,
    cacheKey: Option<string>,
    world: Circumstances)

  const DistantPrefix := "hasRevealedDistantLands_"
  const ChateauPrefix := "hasShownChateauItself_"
  const SavedManorPrefix := "preservedManorAddress_"
  const PathScrollPrefix := "preservedPathScroll_"

  /** The seal namespacing a call's keys: `cacheKey ?? url`. */
  function SealOf(url: string, cacheKey: Option<string>): string {
    cacheKey.GetOr(url)
  }

  function DistantKey(cacheSeal: string): string { DistantPrefix + cacheSeal }
  function ChateauKey(cacheSeal: string): string { ChateauPrefix + cacheSeal }
  function SavedManorKey(cacheSeal: string): string { SavedManorPrefix + cacheSeal }

  /** `"preservedPathScroll_\(url.hash)"` */
  function PathScrollKey(p: Platform, url: string): string {
    PathScrollPrefix + IntText(p.hash(url))
  }

  /** The keys of the two latch flags, for any seal. */
  predicate IsLatchKey(key: string) {
    DistantPrefix <= key || ChateauPrefix <= key
  }

  /** The five key families never collide, and distinct seals get distinct flag keys. */
  lemma KeysApart(p: Platform, seal: string, other: string, url: string)
    ensures IsLatchKey(DistantKey(seal)) && IsLatchKey(ChateauKey(seal))
    ensures DistantKey(seal) != ChateauKey(other)
    ensures DistantKey(seal) == DistantKey(other) ==> seal == other
    ensures ChateauKey(seal) == ChateauKey(other) ==> seal == other
    ensures !IsLatchKey(SavedManorKey(seal)) && !IsLatchKey(PathScrollKey(p, url))
    ensures !IsLatchKey(ChateauKeeper.RoyalArchivesKey)
    ensures SavedManorKey(seal) != PathScrollKey(p, url)
    ensures SavedManorKey(seal) != ChateauKeeper.RoyalArchivesKey
    ensures PathScrollKey(p, url) != ChateauKeeper.RoyalArchivesKey
  {
    assert DistantPrefix[0] == 'h' && ChateauPrefix[0] == 'h' && ChateauKeeper.RoyalArchivesKey[0] == 'v';
    assert SavedManorKey(seal)[0] == 'p' && PathScrollKey(p, url)[0] == 'p';
    assert SavedManorKey(seal)[9] == 'M' && PathScrollKey(p, url)[9] == 'P';
    assert DistantKey(seal)[3] == 'R' && ChateauKey(other)[3] == 'S';
    assert DistantKey(seal)[|DistantPrefix|..] == seal && DistantKey(other)[|DistantPrefix|..] == other;
    assert ChateauKey(seal)[|ChateauPrefix|..] == seal && ChateauKey(other)[|ChateauPrefix|..] == other;
  }

  /** `key` holds the same entry, or is absent, in both stores. */
  predicate Untouched(before: map<string, Value>, after: map<string, Value>, key: string) {
    (key in before <==> key in after) && (key in before ==> after[key] == before[key])
  }

  /** Every key outside `keys` is untouched. */
  ghost predicate ChangesOnly(before: map<string, Value>, after: map<string, Value>, keys: set<string>) {
    forall key :: key !in keys ==> Untouched(before, after, key)
  }

  /** The status band the three fetchers accept: `(200...403).contains(statusCode)`. */
  predicate Accepted(statusCode: int) {
    200 <= statusCode <= 403
  }

  /** `examineRoyalCalendar`: `currentMoment >= targetDate`. */
  predicate ExamineRoyalCalendar(now: int, targetDate: int) {
    now >= targetDate
  }

  /** `examineRoyalDevice`: every device but an iPad is suitable. */
  predicate ExamineRoyalDevice(deviceModel: string) {
    deviceModel != "iPad"
  }

  /** `URL(string:)` succeeds; it never does on the empty string. */
  predicate ParsesAsUrl(p: Platform, s: string) {
    s != [] && p.urlParses(s)
  }

  /** The request URL carrying the install seal as `push_id`. */
  function WithSeal(url: string, chateauSeal: string): string {
    WithItem(url, "push_id", chateauSeal)
  }

  /** The fallback request URL: `url` with the preserved `pathid`, when one was preserved. */
  function WithPathScroll(url: string, token: string): string {
    if token == [] then url else WithItem(url, "pathid", token)
  }

  /** Where a successful request ended up: the last redirect, else the request URL. */
  function Landing(request: string, lastRedirect: string): string {
    if lastRedirect == [] then request else lastRedirect
  }

  datatype Expedition = Expedition(success: bool, destinationManor: string, royalJustification: string)

  /**
    The verdict tuple of `examineDistantManor` (and of the request part of
    `examineDistantManorWithPathScroll`) once the wait is over and the empty
    destination has been patched.
  */
  function Expedite(p: Platform, request: string, reply: Reply): (e: Expedition)
    ensures e.success <==> ParsesAsUrl(p, request) && reply.Response? && Accepted(reply.statusCode)
    ensures e.success ==> e.destinationManor != []
    ensures e.success ==> e.destinationManor == (if reply.lastRedirect == [] then request else reply.lastRedirect)
    ensures !e.success ==> e.destinationManor == []
    ensures !ParsesAsUrl(p, request) ==> e.royalJustification == "Invalid manor address"
    ensures ParsesAsUrl(p, request) && reply.NoReply? ==> e.royalJustification == "Unknown royal error"
    ensures ParsesAsUrl(p, request) && reply.TransportError? ==>
              e.royalJustification == "Courier path error: " + reply.description
    ensures ParsesAsUrl(p, request) && reply.Response? && !Accepted(reply.statusCode) ==>
              e.royalJustification == "Distant manor error: " + IntText(reply.statusCode)
    ensures ParsesAsUrl(p, request) && reply.NonHttpResponse? ==> e.royalJustification == "Invalid royal response"
    ensures e.success ==> e.royalJustification == "Success"
  {
    if !ParsesAsUrl(p, request) then Expedition(false, "", "Invalid manor address")
    else
      match reply
      case TransportError(description) => Expedition(false, "", "Courier path error: " + description)
      case Response(statusCode, lastRedirect) =>
        if Accepted(statusCode) then Expedition(true, Landing(request, lastRedirect), "Success")
        else Expedition(false, "", "Distant manor error: " + IntText(statusCode))
      case NonHttpResponse => Expedition(false, "", "Invalid royal response")
      case NoReply => Expedition(false, "", "Unknown royal error")
  }

  /**
    After an accepted response, `examineDistantManorWithPathScroll` and
    `requestNewManorWithPathScroll` keep the `pathid` item of the request URL
    under `key`, an item without a value as "".
  */
  function RecordPathItem(entries: map<string, Value>, key: string, request: string): (after: map<string, Value>)
    ensures ChangesOnly(entries, after, {key})
    ensures Lookup(request, "pathid").None? ==> after == entries
    ensures Lookup(request, "pathid").Some? ==> TextAt(after, key) == Some(Lookup(request, "pathid").value.GetOr(""))
  {
    match Lookup(request, "pathid")
    case None => entries
    case Some(value) => entries[key := Text(value.GetOr(""))]
  }

  /**
    `examineDistantRealms` keeps the `pathid` value of a destination under
    `key` (for the preserved destination, for a new one, and after the first
    accepted request), only when the item exists and has a value.
  */
  function RecordPathValue(entries: map<string, Value>, key: string, manor: string): (after: map<string, Value>)
    ensures ChangesOnly(entries, after, {key})
    ensures Lookup(manor, "pathid").Some? && Lookup(manor, "pathid").value.Some? ==>
              TextAt(after, key) == Lookup(manor, "pathid").value
    ensures !(Lookup(manor, "pathid").Some? && Lookup(manor, "pathid").value.Some?) ==> after == entries
  {
    match Lookup(manor, "pathid")
    case Some(Some(value)) => entries[key := Text(value)]
    case _ => entries
  }

  /** `examineDistantManorWithPathScroll(url:timeout:)` on a store. */
  function SealedExpedite(entries: map<string, Value>, p: Platform, url: string, picks: seq<nat>, server: string -> Reply)
    : (s: Step<Expedition>)
    requires ChateauKeeper.WellDrawn(picks)
    ensures ChangesOnly(entries, s.entries, {ChateauKeeper.RoyalArchivesKey, PathScrollKey(p, url)})
    ensures TextAt(s.entries, ChateauKeeper.RoyalArchivesKey) == Some(ChateauKeeper.UniqueSeal(entries, picks).out)
    ensures !s.out.success ==> s.entries == ChateauKeeper.UniqueSeal(entries, picks).entries
    ensures var request := WithSeal(url, ChateauKeeper.UniqueSeal(entries, picks).out);
            s.out == Expedite(p, request, server(request))
  {
    var chateauSeal := ChateauKeeper.UniqueSeal(entries, picks);
    var request := WithSeal(url, chateauSeal.out);
    var e := Expedite(p, request, server(request));
    var key := PathScrollKey(p, url);
    var after := if e.success then RecordPathItem(chateauSeal.entries, key, request) else chateauSeal.entries;
    KeysApart(p, "", "", url);
    assert Untouched(chateauSeal.entries, after, ChateauKeeper.RoyalArchivesKey);
    assert ChangesOnly(entries, after, {ChateauKeeper.RoyalArchivesKey, key}) by {
      forall k | k !in {ChateauKeeper.RoyalArchivesKey, key}
        ensures Untouched(entries, after, k)
      {
        assert Untouched(entries, chateauSeal.entries, k);
        assert Untouched(chateauSeal.entries, after, k);
      }
    }
    Step(e, after)
  }

  datatype Validation = Validation(isValid: bool, destinationManor: string)

  /** `validatePreservedManor`: request the preserved destination again, with the seal appended. */
  function Revalidate(entries: map<string, Value>, p: Platform, preservedManor: string, picks: seq<nat>, server: string -> Reply)
    : (s: Step<Validation>)
    requires ChateauKeeper.WellDrawn(picks)
    ensures s.entries == ChateauKeeper.UniqueSeal(entries, picks).entries
    ensures s.out.isValid ==> s.out.destinationManor != []
  {
    var chateauSeal := ChateauKeeper.UniqueSeal(entries, picks);
    var processedManor := WithSeal(preservedManor, chateauSeal.out);
    var e := Expedite(p, processedManor, server(processedManor));
    Step(if e.success then Validation(true, e.destinationManor) else Validation(false, processedManor), chateauSeal.entries)
  }

  datatype NewManor = NewManor(success: bool, destinationManor: string)

  /** `requestNewManorWithPathScroll`: request the original URL with the preserved `pathid`. */
  function Reroute(entries: map<string, Value>, p: Platform, originalManor: string, server: string -> Reply)
    : (s: Step<NewManor>)
    ensures ChangesOnly(entries, s.entries, {PathScrollKey(p, originalManor)})
    ensures s.out.success ==> s.out.destinationManor != []
    ensures !s.out.success ==> s.out.destinationManor == [] && s.entries == entries
    ensures var request := WithPathScroll(originalManor, TextAt(entries, PathScrollKey(p, originalManor)).GetOr(""));
      s.out.success ==>
        (Lookup(request, "pathid").Some? ==>
           TextAt(s.entries, PathScrollKey(p, originalManor)) == Some(Lookup(request, "pathid").value.GetOr(""))) &&
        (Lookup(request, "pathid").None? ==> s.entries == entries)
  {
    var key := PathScrollKey(p, originalManor);
    var manorAddress := WithPathScroll(originalManor, TextAt(entries, key).GetOr(""));
    var e := Expedite(p, manorAddress, server(manorAddress));
    Step(NewManor(e.success, e.destinationManor), if e.success then RecordPathItem(entries, key, manorAddress) else entries)
  }

  /** A failed gate: latch the chateau flag and refuse. */
  function Refusal(entries: map<string, Value>, cacheSeal: string, reason: string): Step<DecreeVerdict> {
    Step(DecreeVerdict(false, "", reason), entries[ChateauKey(cacheSeal) := Flag(true)])
  }

  /** The keys one call may write. */
  function Footprint(p: Platform, c: Call): set<string> {
    var cacheSeal := SealOf(c.url, c.cacheKey);
    {DistantKey(cacheSeal), ChateauKey(cacheSeal), SavedManorKey(cacheSeal), PathScrollKey(p, c.url), ChateauKeeper.RoyalArchivesKey}
  }

  /**
    `examineDistantRealms` when the distant flag is set: revalidate the
    preserved destination; if that fails, ask for a new one with the preserved
    `pathid`. The distant realms are revealed whatever happens, with an empty
    destination exactly when no new one could be obtained.
  */
  function Recall(entries: map<string, Value>, p: Platform, c: Call): (s: Step<DecreeVerdict>)
    requires ChateauKeeper.WellDrawn(c.world.sealPicks)
    ensures s.out.shallRevealDistantRealms
    ensures s.out.destinationManor == [] <==> s.out.royalJustification == "Failed to obtain new manor, reveal empty chronicle"
  {
    var cacheSeal := SealOf(c.url, c.cacheKey);
    var pathScrollKey := PathScrollKey(p, c.url);
    var preservedManor := TextAt(entries, SavedManorKey(cacheSeal)).GetOr(c.url);
    var kept := RecordPathValue(entries, pathScrollKey, preservedManor);
    var validation := Revalidate(kept, p, preservedManor, c.world.sealPicks, c.world.server);
    if validation.out.isValid then
      Step(DecreeVerdict(true, validation.out.destinationManor, "Valid cached distant realms"), validation.entries)
    else
      var newManor := Reroute(validation.entries, p, c.url, c.world.server);
      if newManor.out.success then
        var saved := newManor.entries[SavedManorKey(cacheSeal) := Text(newManor.out.destinationManor)];
        Step(DecreeVerdict(true, newManor.out.destinationManor, "New manor with royal path scroll"),
             RecordPathValue(saved, pathScrollKey, newManor.out.destinationManor))
      else
        Step(DecreeVerdict(true, "", "Failed to obtain new manor, reveal empty chronicle"), newManor.entries)
  }

  /**
    `examineDistantRealms` when neither flag is set: the four gates, in order;
    the first that fails latches the chateau, and passing all of them reveals
    a non-empty destination.
  */
  function Examine(entries: map<string, Value>, p: Platform, c: Call): (s: Step<DecreeVerdict>)
    requires ChateauKeeper.WellDrawn(c.world.sealPicks)
    ensures !s.out.shallRevealDistantRealms ==>
              s.out.destinationManor == [] && IsSet(s.entries, ChateauKey(SealOf(c.url, c.cacheKey)))
    ensures s.out.shallRevealDistantRealms ==>
              s.out.destinationManor != [] && s.out.royalJustification == "All royal examinations passed"
  {
    var cacheSeal := SealOf(c.url, c.cacheKey);
    if !c.world.courierPathsAvailable then
      Refusal(entries, cacheSeal, "No royal courier paths available")
    else if !ExamineRoyalCalendar(c.world.now, c.targetDate) then
      Refusal(entries, cacheSeal, "Royal date not reached")
    else if c.deviceCheck && !ExamineRoyalDevice(c.world.deviceModel) then
      Refusal(entries, cacheSeal, "Royal device not suitable (iPad)")
    else
      var distant := SealedExpedite(entries, p, c.url, c.world.sealPicks, c.world.server);
      if !distant.out.success then
        Refusal(distant.entries, cacheSeal, "Distant manor examination failed: " + distant.out.royalJustification)
      else
        var latched := distant.entries[DistantKey(cacheSeal) := Flag(true)][SavedManorKey(cacheSeal) := Text(distant.out.destinationManor)];
        Step(DecreeVerdict(true, distant.out.destinationManor, "All royal examinations passed"),
             RecordPathValue(latched, PathScrollKey(p, c.url), distant.out.destinationManor))
  }

  /** `examineDistantRealms` on a store: the verdict and the store it leaves behind. */
  function Decree(entries: map<string, Value>, p: Platform, c: Call): (s: Step<DecreeVerdict>)
    requires ChateauKeeper.WellDrawn(c.world.sealPicks)
    ensures IsSet(entries, DistantKey(SealOf(c.url, c.cacheKey))) ==> s.out.shallRevealDistantRealms
    ensures !s.out.shallRevealDistantRealms ==> s.out.destinationManor == []
  {
    var cacheSeal := SealOf(c.url, c.cacheKey);
    if IsSet(entries, DistantKey(cacheSeal)) then Recall(entries, p, c)
    else if IsSet(entries, ChateauKey(cacheSeal)) then Step(DecreeVerdict(false, "", "Cached chateau content"), entries)
    else Examine(entries, p, c)
  }

  // ---------------------------------------------------------------------------
  // The operations as the source performs them, on the store object.
  // ---------------------------------------------------------------------------

  /** `examineDistantManor(url:timeout:)`: no store access. */
  method ExamineDistantManor(p: Platform, url: string, reply: Reply) returns (verdict: Expedition)
    ensures verdict == Expedite(p, url, reply)
  {
    if !ParsesAsUrl(p, url) {
      return Expedition(false, "", "Invalid manor address");
    }
    var expeditionManor := url;
    verdict := Expedition(false, "", "Unknown royal error");
    match reply {
      case TransportError(description) =>
        verdict := Expedition(false, "", "Courier path error: " + description);
      case Response(statusCode, lastRedirect) =>
        if Accepted(statusCode) {
          var resolvedManor := if lastRedirect == [] then expeditionManor else lastRedirect;
          verdict := Expedition(true, resolvedManor, "Success");
        } else {
          verdict := Expedition(false, "", "Distant manor error: " + IntText(statusCode));
        }
      case NonHttpResponse =>
        verdict := Expedition(false, "", "Invalid royal response");
      case NoReply =>
    }
    if verdict.success && verdict.destinationManor == [] {
      verdict := verdict.(destinationManor := expeditionManor);
    }
  }

  /** The three places in `examineDistantRealms` that keep the `pathid` value of `manor` under `key`, if it has one. */
  method PreservePathScroll(d: Defaults, key: string, manor: string)
    modifies d
    ensures d.entries == RecordPathValue(old(d.entries), key, manor)
  {
    var pathScrollItem := Lookup(manor, "pathid");
    if pathScrollItem.Some? && pathScrollItem.value.Some? {
      d.Set(key, Text(pathScrollItem.value.value));
    }
  }

  /** `examineDistantManorWithPathScroll(url:timeout:)` */
  method ExamineDistantManorWithPathScroll(d: Defaults, p: Platform, url: string, picks: seq<nat>, server: string -> Reply)
    returns (verdict: Expedition)
    requires ChateauKeeper.WellDrawn(picks)
    modifies d
    ensures Step(verdict, d.entries) == SealedExpedite(old(d.entries), p, url, picks, server)
  {
    var chateauSeal := ChateauKeeper.GetUniqueChateauSeal(d, picks);
    var manorWithSeal := if '?' in url then url + "&push_id=" + chateauSeal else url + "?push_id=" + chateauSeal;
    assert manorWithSeal == WithSeal(url, chateauSeal);
    if !ParsesAsUrl(p, manorWithSeal) {
      return Expedition(false, "", "Invalid manor address");
    }
    var expeditionManor := manorWithSeal;
    verdict := Expedition(false, "", "Unknown royal error");
    match server(expeditionManor) {
      case TransportError(description) =>
        verdict := Expedition(false, "", "Courier path error: " + description);
      case Response(statusCode, lastRedirect) =>
        if Accepted(statusCode) {
          var resolvedManor := if lastRedirect == [] then expeditionManor else lastRedirect;
          verdict := Expedition(true, resolvedManor, "Success");
          var pathScrollItem := Lookup(expeditionManor, "pathid");
          if pathScrollItem.Some? {
            d.Set(PathScrollKey(p, url), Text(pathScrollItem.value.GetOr("")));
          }
        } else {
          verdict := Expedition(false, "", "Distant manor error: " + IntText(statusCode));
        }
      case NonHttpResponse =>
        verdict := Expedition(false, "", "Invalid royal response");
      case NoReply =>
    }
    if verdict.success && verdict.destinationManor == [] {
      verdict := verdict.(destinationManor := expeditionManor);
    }
  }

  /** `validatePreservedManor(preservedManor:originalManor:timeout:)`; the original URL is unused there. */
  method ValidatePreservedManor(d: Defaults, p: Platform, preservedManor: string, picks: seq<nat>, server: string -> Reply)
    returns (verdict: Validation)
    requires ChateauKeeper.WellDrawn(picks)
    modifies d
    ensures Step(verdict, d.entries) == Revalidate(old(d.entries), p, preservedManor, picks, server)
  {
    var chateauSeal := ChateauKeeper.GetUniqueChateauSeal(d, picks);
    var processedManor := if '?' in preservedManor then preservedManor + "&push_id=" + chateauSeal else preservedManor + "?push_id=" + chateauSeal;
    assert processedManor == WithSeal(preservedManor, chateauSeal);
    var validationVerdict := ExamineDistantManor(p, processedManor, server(processedManor));
    if validationVerdict.success {
      var destinationManor := if validationVerdict.destinationManor == [] then processedManor else validationVerdict.destinationManor;
      return Validation(true, destinationManor);
    } else {
      return Validation(false, processedManor);
    }
  }

  /** `requestNewManorWithPathScroll(originalManor:timeout:)` */
  method RequestNewManorWithPathScroll(d: Defaults, p: Platform, originalManor: string, server: string -> Reply)
    returns (verdict: NewManor)
    modifies d
    ensures Step(verdict, d.entries) == Reroute(old(d.entries), p, originalManor, server)
  {
    var pathScrollKey := PathScrollKey(p, originalManor);
    var preservedPathScroll := d.StringFor(pathScrollKey).GetOr("");
    var manorAddress := originalManor;
    if preservedPathScroll != [] {
      if '?' in manorAddress {
        manorAddress := manorAddress + "&pathid=" + preservedPathScroll;
      } else {
        manorAddress := manorAddress + "?pathid=" + preservedPathScroll;
      }
    }
    assert manorAddress == WithPathScroll(originalManor, preservedPathScroll);
    verdict := NewManor(false, "");
    if !ParsesAsUrl(p, manorAddress) {
      return NewManor(false, "");
    }
    var expeditionManor := manorAddress;
    match server(expeditionManor) {
      case Response(statusCode, lastRedirect) =>
        if Accepted(statusCode) {
          var resolvedManor := if lastRedirect == [] then expeditionManor else lastRedirect;
          verdict := NewManor(true, resolvedManor);
          var pathScrollItem := Lookup(expeditionManor, "pathid");
          if pathScrollItem.Some? {
            d.Set(pathScrollKey, Text(pathScrollItem.value.GetOr("")));
          }
        } else {
          verdict := NewManor(false, "");
        }
      case TransportError(_) =>
        verdict := NewManor(false, "");
      case NonHttpResponse =>
        verdict := NewManor(false, "");
      case NoReply =>
    }
    if verdict.success && verdict.destinationManor == [] {
      verdict := verdict.(destinationManor := expeditionManor);
    }
  }

  /**
    `examineDistantRealms(url:targetDate:deviceCheck:timeout:cacheKey:)`.
    `timeout` bounds each request's wait; what the wait produced is the
    server's reply for that request.
  */
  method ExamineDistantRealms(
    d: Defaults, p: Platform, world: Circumstances,
    url: string, targetDate: int, deviceCheck: bool := true, timeout: real := 12.0, cacheKey: Option<string> := None)
    returns (verdict: DecreeVerdict)
    requires ChateauKeeper.WellDrawn(world.sealPicks)
    modifies d
    ensures Step(verdict, d.entries) == Decree(old(d.entries), p, Call(url, targetDate, deviceCheck, timeout, cacheKey, world))
  {
    var uniqueSeal := cacheKey.GetOr(url);
    var hasShownDistantKey := DistantPrefix + uniqueSeal;
    var hasShownChateauKey := ChateauPrefix + uniqueSeal;
    var savedManorKey := SavedManorPrefix + uniqueSeal;

    if d.BoolFor(hasShownDistantKey) {
      var preservedManor := d.StringFor(savedManorKey).GetOr(url);
      PreservePathScroll(d, PathScrollKey(p, url), preservedManor);

      var validationVerdict := ValidatePreservedManor(d, p, preservedManor, world.sealPicks, world.server);
      if validationVerdict.isValid {
        return DecreeVerdict(true, validationVerdict.destinationManor, "Valid cached distant realms");
      } else {
        var newManorVerdict := RequestNewManorWithPathScroll(d, p, url, world.server);
        if newManorVerdict.success {
          d.Set(savedManorKey, Text(newManorVerdict.destinationManor));
          PreservePathScroll(d, PathScrollKey(p, url), newManorVerdict.destinationManor);
          return DecreeVerdict(true, newManorVerdict.destinationManor, "New manor with royal path scroll");
        } else {
          return DecreeVerdict(true, "", "Failed to obtain new manor, reveal empty chronicle");
        }
      }
    }

    if d.BoolFor(hasShownChateauKey) {
      return DecreeVerdict(false, "", "Cached chateau content");
    }

    var courierVerdict := world.courierPathsAvailable;
    if !courierVerdict {
      d.Set(hasShownChateauKey, Flag(true));
      return DecreeVerdict(false, "", "No royal courier paths available");
    }

    var calendarVerdict := ExamineRoyalCalendar(world.now, targetDate);
    if !calendarVerdict {
      d.Set(hasShownChateauKey, Flag(true));
      return DecreeVerdict(false, "", "Royal date not reached");
    }

    if deviceCheck {
      var deviceVerdict := ExamineRoyalDevice(world.deviceModel);
      if !deviceVerdict {
        d.Set(hasShownChateauKey, Flag(true));
        return DecreeVerdict(false, "", "Royal device not suitable (iPad)");
      }
    }

    var distantVerdict := ExamineDistantManorWithPathScroll(d, p, url, world.sealPicks, world.server);
    if !distantVerdict.success {
      d.Set(hasShownChateauKey, Flag(true));
      return DecreeVerdict(false, "", "Distant manor examination failed: " + distantVerdict.royalJustification);
    }

    d.Set(hasShownDistantKey, Flag(true));
    d.Set(savedManorKey, Text(distantVerdict.destinationManor));
    PreservePathScroll(d, PathScrollKey(p, url), distantVerdict.destinationManor);
    return DecreeVerdict(true, distantVerdict.destinationManor, "All royal examinations passed");
  }
}
