/**
  What `examineDistantRealms` promises, proved about `RoyalDecree.Decree`
  (and so, through the methods' postconditions, about the imperative code):
  the two-flag latch, the gate order, the replay of a latched decision over
  any later sequence of calls, and the query items the engine's requests carry.
*/
module RoyalDecreeProperties {
  import opened Options
  import opened Decimal
  import opened Query
  import opened Store
  import ChateauKeeper
  import opened RoyalDecree

  // ---------------------------------------------------------------------------
  // Requests and replies
  // ---------------------------------------------------------------------------

  /** A forged seal cannot end a query item: it has no '&', '=' or '#'. */
  lemma HeraldicIsPlain(chateauSeal: string)
    requires ChateauKeeper.AllHeraldic(chateauSeal)
    ensures IsPlainToken(chateauSeal)
  {
  }

  lemma ItemNamesArePlain()
    ensures IsPlainToken("push_id") && IsPlainToken("pathid")
  {
  }

  /**
    The sealed request reads back the seal as `push_id` and keeps the caller's
    `pathid` item exactly as it was.
  */
  lemma SealedRequestCarriesSeal(url: string, chateauSeal: string)
    requires '#' !in url && IsPlainValue(chateauSeal)
    requires Lookup(url, "push_id").None?
    ensures Lookup(WithSeal(url, chateauSeal), "push_id") == Some(Some(chateauSeal))
    ensures Lookup(WithSeal(url, chateauSeal), "pathid") == Lookup(url, "pathid")
  {
    ItemNamesArePlain();
    WithItemReadsBack(url, "push_id", chateauSeal);
    WithItemKeepsOthers(url, "push_id", chateauSeal, "pathid");
  }

  /**
    The fallback request carries the preserved token as `pathid` when there is
    one, and is the original URL itself when there is none.
  */
  lemma FallbackCarriesPathScroll(url: string, token: string)
    requires '#' !in url && IsPlainValue(token)
    requires Lookup(url, "pathid").None?
    ensures token == [] ==> WithPathScroll(url, token) == url
    ensures token != [] ==> Lookup(WithPathScroll(url, token), "pathid") == Some(Some(token))
    ensures Lookup(WithPathScroll(url, token), "push_id") == Lookup(url, "push_id")
  {
    ItemNamesArePlain();
    if token != [] {
      WithItemReadsBack(url, "pathid", token);
      WithItemKeepsOthers(url, "pathid", token, "push_id");
    }
  }

  /** The band is 200...403 inclusive at both ends. */
  lemma StatusBandEdges(p: Platform, request: string, lastRedirect: string)
    requires ParsesAsUrl(p, request)
    ensures Expedite(p, request, Response(200, lastRedirect)).success
    ensures Expedite(p, request, Response(403, lastRedirect)).success
    ensures Expedite(p, request, Response(199, lastRedirect)) == Expedition(false, "", "Distant manor error: 199")
    ensures Expedite(p, request, Response(404, lastRedirect)) == Expedition(false, "", "Distant manor error: 404")
  {
  }

  /** A rejected status is named in the reason: equal reasons mean equal statuses. */
  lemma RejectionNamesStatus(p: Platform, request: string, other: string, status: int, otherStatus: int, r1: string, r2: string)
    requires ParsesAsUrl(p, request) && ParsesAsUrl(p, other)
    requires !Accepted(status) && !Accepted(otherStatus)
    requires Expedite(p, request, Response(status, r1)).royalJustification
          == Expedite(p, other, Response(otherStatus, r2)).royalJustification
    ensures status == otherStatus
  {
    var prefix := "Distant manor error: ";
    var reason := prefix + IntText(status);
    var otherReason := prefix + IntText(otherStatus);
    assert reason[|prefix|..] == IntText(status);
    assert otherReason[|prefix|..] == IntText(otherStatus);
    IntTextInjective(status, otherStatus);
  }

  /**
    When the caller's URL has a fragment, both appended items land inside it:
    the request's query is the caller's own, so neither `push_id` nor `pathid`
    reaches the destination as a query item.
  */
  lemma FragmentSwallowsItems(url: string, chateauSeal: string, token: string)
    requires '#' in url
    ensures QueryOf(WithSeal(url, chateauSeal)) == QueryOf(url)
    ensures QueryOf(WithPathScroll(url, token)) == QueryOf(url)
    ensures Lookup(WithSeal(url, chateauSeal), "push_id") == Lookup(url, "push_id")
  {
    FragmentHidesItem(url, "push_id", chateauSeal);
    if token != [] {
      FragmentHidesItem(url, "pathid", token);
    }
  }

  /**
    On the first success, `examineDistantManorWithPathScroll` keeps the
    `pathid` of the caller's URL (read from the request, which only adds
    `push_id`), not of the redirect target; without such an item nothing is
    kept.
  */
  lemma FirstSuccessKeepsCallerPathId(entries: map<string, Value>, p: Platform, url: string, picks: seq<nat>, server: string -> Reply)
    requires ChateauKeeper.WellDrawn(picks)
    requires TextAt(entries, ChateauKeeper.RoyalArchivesKey).Some? ==> IsPlainValue(TextAt(entries, ChateauKeeper.RoyalArchivesKey).value)
    ensures var s := SealedExpedite(entries, p, url, picks, server);
      s.out.success ==>
        (Lookup(url, "pathid").Some? ==>
           TextAt(s.entries, PathScrollKey(p, url)) == Some(Lookup(url, "pathid").value.GetOr(""))) &&
        (Lookup(url, "pathid").None? ==> Untouched(entries, s.entries, PathScrollKey(p, url)))
  {
    var chateauSeal := ChateauKeeper.UniqueSeal(entries, picks);
    if TextAt(entries, ChateauKeeper.RoyalArchivesKey).None? {
      HeraldicIsPlain(chateauSeal.out);
    }
    ItemNamesArePlain();
    WithItemKeepsOthers(url, "push_id", chateauSeal.out, "pathid");
    KeysApart(p, "", "", url);
  }

  /**
    The token a revealing first evaluation leaves behind: `examineDistantRealms`
    overwrites what the fetcher kept with the destination's `pathid` value when
    there is one; otherwise the caller's `pathid` item stays, and without that
    the token is what it was before the call.
  */
  lemma FirstRevealPathToken(entries: map<string, Value>, p: Platform, c: Call)
    requires ChateauKeeper.WellDrawn(c.world.sealPicks)
    requires TextAt(entries, ChateauKeeper.RoyalArchivesKey).Some? ==> IsPlainValue(TextAt(entries, ChateauKeeper.RoyalArchivesKey).value)
    ensures var s := Examine(entries, p, c);
      s.out.shallRevealDistantRealms ==>
        TextAt(s.entries, PathScrollKey(p, c.url)) ==
          match Lookup(s.out.destinationManor, "pathid")
          case Some(Some(token)) => Some(token)
          case _ =>
            match Lookup(c.url, "pathid")
            case Some(value) => Some(value.GetOr(""))
            case None => TextAt(entries, PathScrollKey(p, c.url))
  {
    var cacheSeal := SealOf(c.url, c.cacheKey);
    var key := PathScrollKey(p, c.url);
    var s := Examine(entries, p, c);
    if s.out.shallRevealDistantRealms {
      ExamineLatches(entries, p, c);
      assert GatesPass(entries, p, c);
      KeysApart(p, cacheSeal, cacheSeal, c.url);
      var distant := SealedExpedite(entries, p, c.url, c.world.sealPicks, c.world.server);
      var manor := distant.out.destinationManor;
      var latched := distant.entries[DistantKey(cacheSeal) := Flag(true)][SavedManorKey(cacheSeal) := Text(manor)];
      assert s == Step(DecreeVerdict(true, manor, "All royal examinations passed"), RecordPathValue(latched, key, manor));
      assert TextAt(latched, key) == TextAt(distant.entries, key);
      FirstSuccessKeepsCallerPathId(entries, p, c.url, c.world.sealPicks, c.world.server);
    }
  }

  // ---------------------------------------------------------------------------
  // One call
  // ---------------------------------------------------------------------------

  /** No seal has both flags set. */
  ghost predicate Exclusive(entries: map<string, Value>) {
    forall cacheSeal :: !(IsSet(entries, DistantKey(cacheSeal)) && IsSet(entries, ChateauKey(cacheSeal)))
  }

  /** Every flag set in `before` is still set in `after`. */
  ghost predicate FlagsKept(before: map<string, Value>, after: map<string, Value>) {
    forall cacheSeal ::
      (IsSet(before, DistantKey(cacheSeal)) ==> IsSet(after, DistantKey(cacheSeal))) &&
      (IsSet(before, ChateauKey(cacheSeal)) ==> IsSet(after, ChateauKey(cacheSeal)))
  }

  /**
    With the distant flag set, the verdict always reveals. The preserved
    destination is revalidated; if that fails the fallback is tried; if both
    fail the destination is empty. The flags are not written, and the "Valid
    cached" answer does not save its destination again.
  */
  lemma RecallStands(entries: map<string, Value>, p: Platform, c: Call)
    requires ChateauKeeper.WellDrawn(c.world.sealPicks)
    ensures var cacheSeal := SealOf(c.url, c.cacheKey);
      ChangesOnly(entries, Recall(entries, p, c).entries, {SavedManorKey(cacheSeal), PathScrollKey(p, c.url), ChateauKeeper.RoyalArchivesKey})
    ensures var v := Recall(entries, p, c).out;
      v.royalJustification == "Valid cached distant realms" ||
      v.royalJustification == "New manor with royal path scroll" ||
      v.royalJustification == "Failed to obtain new manor, reveal empty chronicle"
    ensures var s := Recall(entries, p, c);
      s.out.royalJustification != "New manor with royal path scroll" ==>
        Untouched(entries, s.entries, SavedManorKey(SealOf(c.url, c.cacheKey)))
    ensures var s := Recall(entries, p, c);
      s.out.royalJustification == "New manor with royal path scroll" ==>
        TextAt(s.entries, SavedManorKey(SealOf(c.url, c.cacheKey))) == Some(s.out.destinationManor)
  {
    var cacheSeal := SealOf(c.url, c.cacheKey);
    var key := PathScrollKey(p, c.url);
    var saved := SavedManorKey(cacheSeal);
    KeysApart(p, cacheSeal, cacheSeal, c.url);
    var preservedManor := TextAt(entries, saved).GetOr(c.url);
    var kept := RecordPathValue(entries, key, preservedManor);
    var validation := Revalidate(kept, p, preservedManor, c.world.sealPicks, c.world.server);
    var newManor := Reroute(validation.entries, p, c.url, c.world.server);
    var renewed := newManor.entries[saved := Text(newManor.out.destinationManor)];
    var last := RecordPathValue(renewed, key, newManor.out.destinationManor);
    var s := Recall(entries, p, c);
    assert s.entries == validation.entries || s.entries == newManor.entries || s.entries == last;
    forall k | k !in {saved, key, ChateauKeeper.RoyalArchivesKey}
      ensures Untouched(entries, s.entries, k)
    {
      assert Untouched(entries, kept, k);
      assert Untouched(kept, validation.entries, k);
      assert Untouched(validation.entries, newManor.entries, k);
      assert Untouched(renewed, last, k);
    }
    assert Untouched(entries, kept, saved);
    assert Untouched(kept, validation.entries, saved);
    if !validation.out.isValid {
      if newManor.out.success {
        assert Untouched(renewed, last, saved);
      } else {
        assert Untouched(validation.entries, newManor.entries, saved);
      }
    }
  }

  /**
    The token a cached call keeps before revalidating: the preserved
    destination's own `pathid` value, or else the token kept by an earlier call.
  */
  function KeptToken(entries: map<string, Value>, p: Platform, c: Call): Option<string> {
    var preservedManor := TextAt(entries, SavedManorKey(SealOf(c.url, c.cacheKey))).GetOr(c.url);
    match Lookup(preservedManor, "pathid")
    case Some(Some(token)) => Some(token)
    case _ => TextAt(entries, PathScrollKey(p, c.url))
  }

  /** The `pathid` token the fallback request carries: the kept token, or "" without one. */
  function FallbackToken(entries: map<string, Value>, p: Platform, c: Call): string {
    KeptToken(entries, p, c).GetOr("")
  }

  /**
    The token a cached call leaves for later calls. Unless a new manor was
    obtained, it is the one kept before revalidating: the preserved
    destination's `pathid` value, or else the earlier token. After a new
    manor it is the new destination's `pathid` value, else the fallback
    request's `pathid` item ("" without a value), else that kept token.
  */
  lemma RecallPathToken(entries: map<string, Value>, p: Platform, c: Call)
    requires ChateauKeeper.WellDrawn(c.world.sealPicks)
    ensures var s := Recall(entries, p, c);
            var fallbackRequest := WithPathScroll(c.url, FallbackToken(entries, p, c));
      TextAt(s.entries, PathScrollKey(p, c.url)) ==
        if s.out.royalJustification != "New manor with royal path scroll" then KeptToken(entries, p, c)
        else
          match Lookup(s.out.destinationManor, "pathid")
          case Some(Some(token)) => Some(token)
          case _ =>
            match Lookup(fallbackRequest, "pathid")
            case Some(value) => Some(value.GetOr(""))
            case None => KeptToken(entries, p, c)
  {
    var cacheSeal := SealOf(c.url, c.cacheKey);
    var key := PathScrollKey(p, c.url);
    var saved := SavedManorKey(cacheSeal);
    var preservedManor := TextAt(entries, saved).GetOr(c.url);
    var kept := RecordPathValue(entries, key, preservedManor);
    var validation := Revalidate(kept, p, preservedManor, c.world.sealPicks, c.world.server);
    var newManor := Reroute(validation.entries, p, c.url, c.world.server);
    var s := Recall(entries, p, c);
    KeysApart(p, cacheSeal, cacheSeal, c.url);
    assert TextAt(validation.entries, key) == TextAt(kept, key) by {
      assert Untouched(kept, validation.entries, key);
    }
    assert TextAt(kept, key) == KeptToken(entries, p, c);
    if validation.out.isValid {
      assert s.out.royalJustification != "New manor with royal path scroll" && s.entries == validation.entries by {
        assert s == Step(DecreeVerdict(true, validation.out.destinationManor, "Valid cached distant realms"), validation.entries);
      }
    } else if newManor.out.success {
      var renewed := newManor.entries[saved := Text(newManor.out.destinationManor)];
      assert s.out.royalJustification == "New manor with royal path scroll" &&
             s.out.destinationManor == newManor.out.destinationManor &&
             s.entries == RecordPathValue(renewed, key, newManor.out.destinationManor) by {
        assert s == Step(DecreeVerdict(true, newManor.out.destinationManor, "New manor with royal path scroll"),
                         RecordPathValue(renewed, key, newManor.out.destinationManor));
      }
      assert TextAt(renewed, key) == TextAt(newManor.entries, key);
    } else {
      assert s.out.royalJustification != "New manor with royal path scroll" && s.entries == validation.entries by {
        assert s == Step(DecreeVerdict(true, "", "Failed to obtain new manor, reveal empty chronicle"), newManor.entries);
      }
    }
  }

  /**
    The requests of a cached call: the preserved destination (or the URL)
    with the install seal; if that is not accepted, the URL with the
    fallback token; the verdict follows the first one accepted.
  */
  lemma RecallRequests(entries: map<string, Value>, p: Platform, c: Call)
    requires ChateauKeeper.WellDrawn(c.world.sealPicks)
    ensures var preservedManor := TextAt(entries, SavedManorKey(SealOf(c.url, c.cacheKey))).GetOr(c.url);
            var revalidation := WithSeal(preservedManor, ChateauKeeper.UniqueSeal(entries, c.world.sealPicks).out);
            var check := Expedite(p, revalidation, c.world.server(revalidation));
            var fallbackRequest := WithPathScroll(c.url, FallbackToken(entries, p, c));
            var fallback := Expedite(p, fallbackRequest, c.world.server(fallbackRequest));
      Recall(entries, p, c).out ==
        if check.success then DecreeVerdict(true, check.destinationManor, "Valid cached distant realms")
        else if fallback.success then DecreeVerdict(true, fallback.destinationManor, "New manor with royal path scroll")
        else DecreeVerdict(true, "", "Failed to obtain new manor, reveal empty chronicle")
  {
    var cacheSeal := SealOf(c.url, c.cacheKey);
    var key := PathScrollKey(p, c.url);
    KeysApart(p, cacheSeal, cacheSeal, c.url);
    var preservedManor := TextAt(entries, SavedManorKey(cacheSeal)).GetOr(c.url);
    var kept := RecordPathValue(entries, key, preservedManor);
    assert Untouched(entries, kept, ChateauKeeper.RoyalArchivesKey);
    assert ChateauKeeper.UniqueSeal(kept, c.world.sealPicks).out == ChateauKeeper.UniqueSeal(entries, c.world.sealPicks).out;
    var validation := Revalidate(kept, p, preservedManor, c.world.sealPicks, c.world.server);
    assert TextAt(validation.entries, key) == TextAt(kept, key);
    assert TextAt(kept, key).GetOr("") == FallbackToken(entries, p, c);
  }

  /** With only the chateau flag set, the call answers "Cached chateau content" and writes nothing. */
  lemma CachedChateauReplays(entries: map<string, Value>, p: Platform, c: Call)
    requires ChateauKeeper.WellDrawn(c.world.sealPicks)
    requires !IsSet(entries, DistantKey(SealOf(c.url, c.cacheKey)))
    requires IsSet(entries, ChateauKey(SealOf(c.url, c.cacheKey)))
    ensures Decree(entries, p, c) == Step(DecreeVerdict(false, "", "Cached chateau content"), entries)
  {
  }

  /** The four gates of a first evaluation, in their order. */
  predicate GatesPass(entries: map<string, Value>, p: Platform, c: Call)
    requires ChateauKeeper.WellDrawn(c.world.sealPicks)
  {
    c.world.courierPathsAvailable &&
    ExamineRoyalCalendar(c.world.now, c.targetDate) &&
    (c.deviceCheck ==> ExamineRoyalDevice(c.world.deviceModel)) &&
    SealedExpedite(entries, p, c.url, c.world.sealPicks, c.world.server).out.success
  }

  /**
    A first evaluation reveals exactly when all four gates pass. Then the
    distant flag is set and the destination, never empty, is saved. Otherwise
    the chateau flag is set, the destination is empty, and neither the distant
    flag nor the saved destination is touched.
  */
  lemma ExamineLatches(entries: map<string, Value>, p: Platform, c: Call)
    requires ChateauKeeper.WellDrawn(c.world.sealPicks)
    ensures ChangesOnly(entries, Examine(entries, p, c).entries, Footprint(p, c))
    ensures Examine(entries, p, c).out.shallRevealDistantRealms <==> GatesPass(entries, p, c)
    ensures var s := Examine(entries, p, c);
            var cacheSeal := SealOf(c.url, c.cacheKey);
      s.out.shallRevealDistantRealms ==>
        s.out.royalJustification == "All royal examinations passed" && s.out.destinationManor != [] &&
        IsSet(s.entries, DistantKey(cacheSeal)) && Untouched(entries, s.entries, ChateauKey(cacheSeal)) &&
        TextAt(s.entries, SavedManorKey(cacheSeal)) == Some(s.out.destinationManor)
    ensures var s := Examine(entries, p, c);
            var cacheSeal := SealOf(c.url, c.cacheKey);
      !s.out.shallRevealDistantRealms ==>
        s.out.destinationManor == [] &&
        IsSet(s.entries, ChateauKey(cacheSeal)) && Untouched(entries, s.entries, DistantKey(cacheSeal)) &&
        Untouched(entries, s.entries, SavedManorKey(cacheSeal))
  {
    var cacheSeal := SealOf(c.url, c.cacheKey);
    var key := PathScrollKey(p, c.url);
    KeysApart(p, cacheSeal, cacheSeal, c.url);
    var distant := SealedExpedite(entries, p, c.url, c.world.sealPicks, c.world.server);
    var latched := distant.entries[DistantKey(cacheSeal) := Flag(true)][SavedManorKey(cacheSeal) := Text(distant.out.destinationManor)];
    var last := RecordPathValue(latched, key, distant.out.destinationManor);
    var s := Examine(entries, p, c);
    var refused := distant.entries[ChateauKey(cacheSeal) := Flag(true)];
    assert s.entries == entries[ChateauKey(cacheSeal) := Flag(true)] || s.entries == refused || s.entries == last;
    forall k | k !in Footprint(p, c)
      ensures Untouched(entries, s.entries, k)
    {
      assert Untouched(entries, distant.entries, k);
      assert Untouched(latched, last, k);
    }
    if GatesPass(entries, p, c) {
      assert Untouched(latched, last, DistantKey(cacheSeal)) && Untouched(latched, last, SavedManorKey(cacheSeal));
      assert Untouched(latched, last, ChateauKey(cacheSeal));
      assert Untouched(entries, distant.entries, ChateauKey(cacheSeal));
    } else if c.world.courierPathsAvailable && ExamineRoyalCalendar(c.world.now, c.targetDate) &&
              (c.deviceCheck ==> ExamineRoyalDevice(c.world.deviceModel)) {
      assert Untouched(entries, distant.entries, DistantKey(cacheSeal)) && Untouched(entries, distant.entries, SavedManorKey(cacheSeal));
    }
  }

  /** A failed gate is named in the reason, the first one that failed. */
  lemma ExamineNamesFailedGate(entries: map<string, Value>, p: Platform, c: Call)
    requires ChateauKeeper.WellDrawn(c.world.sealPicks)
    ensures var s := Examine(entries, p, c);
            var refused := entries[ChateauKey(SealOf(c.url, c.cacheKey)) := Flag(true)];
      (!c.world.courierPathsAvailable ==>
         s == Step(DecreeVerdict(false, "", "No royal courier paths available"), refused)) &&
      (c.world.courierPathsAvailable && !ExamineRoyalCalendar(c.world.now, c.targetDate) ==>
         s == Step(DecreeVerdict(false, "", "Royal date not reached"), refused)) &&
      (c.world.courierPathsAvailable && ExamineRoyalCalendar(c.world.now, c.targetDate) &&
       c.deviceCheck && !ExamineRoyalDevice(c.world.deviceModel) ==>
         s == Step(DecreeVerdict(false, "", "Royal device not suitable (iPad)"), refused))
    ensures var s := Examine(entries, p, c);
            var distant := SealedExpedite(entries, p, c.url, c.world.sealPicks, c.world.server);
            var sealed := ChateauKeeper.UniqueSeal(entries, c.world.sealPicks).entries;
      c.world.courierPathsAvailable && ExamineRoyalCalendar(c.world.now, c.targetDate) &&
      (c.deviceCheck ==> ExamineRoyalDevice(c.world.deviceModel)) && !distant.out.success ==>
        s == Step(DecreeVerdict(false, "", "Distant manor examination failed: " + distant.out.royalJustification),
                  sealed[ChateauKey(SealOf(c.url, c.cacheKey)) := Flag(true)])
    ensures var s := Examine(entries, p, c);
      !s.out.shallRevealDistantRealms ==> Untouched(entries, s.entries, PathScrollKey(p, c.url))
  {
    KeysApart(p, SealOf(c.url, c.cacheKey), SealOf(c.url, c.cacheKey), c.url);
  }

  /** Without `deviceCheck` the device model plays no part. */
  lemma DeviceIgnoredUnlessChecked(entries: map<string, Value>, p: Platform, c: Call, model: string)
    requires ChateauKeeper.WellDrawn(c.world.sealPicks)
    requires !c.deviceCheck
    ensures Decree(entries, p, c) == Decree(entries, p, c.(world := c.world.(deviceModel := model)))
  {
  }

  /** The keys one call may write: its seal's three keys, the URL's path-token key and the install-seal key. */
  lemma DecreeFootprint(entries: map<string, Value>, p: Platform, c: Call)
    requires ChateauKeeper.WellDrawn(c.world.sealPicks)
    ensures ChangesOnly(entries, Decree(entries, p, c).entries, Footprint(p, c))
  {
    var cacheSeal := SealOf(c.url, c.cacheKey);
    if IsSet(entries, DistantKey(cacheSeal)) {
      RecallStands(entries, p, c);
    } else if !IsSet(entries, ChateauKey(cacheSeal)) {
      ExamineLatches(entries, p, c);
    }
  }

  /** A call keeps an install seal that is already stored: the seal is made at most once. */
  lemma SealKeptByDecree(entries: map<string, Value>, p: Platform, c: Call)
    requires ChateauKeeper.WellDrawn(c.world.sealPicks)
    requires TextAt(entries, ChateauKeeper.RoyalArchivesKey).Some?
    ensures Untouched(entries, Decree(entries, p, c).entries, ChateauKeeper.RoyalArchivesKey)
  {
    var cacheSeal := SealOf(c.url, c.cacheKey);
    var archive := ChateauKeeper.RoyalArchivesKey;
    var key := PathScrollKey(p, c.url);
    var saved := SavedManorKey(cacheSeal);
    KeysApart(p, cacheSeal, cacheSeal, c.url);
    var s := Decree(entries, p, c);
    if IsSet(entries, DistantKey(cacheSeal)) {
      var preservedManor := TextAt(entries, saved).GetOr(c.url);
      var kept := RecordPathValue(entries, key, preservedManor);
      assert Untouched(entries, kept, archive);
      var validation := Revalidate(kept, p, preservedManor, c.world.sealPicks, c.world.server);
      assert validation.entries == kept;
      var newManor := Reroute(validation.entries, p, c.url, c.world.server);
      assert Untouched(validation.entries, newManor.entries, archive);
      var renewed := newManor.entries[saved := Text(newManor.out.destinationManor)];
      var last := RecordPathValue(renewed, key, newManor.out.destinationManor);
      assert Untouched(renewed, last, archive);
      assert s == Recall(entries, p, c);
      assert s.entries == validation.entries || s.entries == newManor.entries || s.entries == last;
    } else if !IsSet(entries, ChateauKey(cacheSeal)) {
      var distant := SealedExpedite(entries, p, c.url, c.world.sealPicks, c.world.server);
      assert Untouched(entries, distant.entries, archive);
      var latched := distant.entries[DistantKey(cacheSeal) := Flag(true)][saved := Text(distant.out.destinationManor)];
      assert Untouched(latched, RecordPathValue(latched, key, distant.out.destinationManor), archive);
      assert s == Examine(entries, p, c);
    }
  }

  /** A call leaves the flags of every other seal as they were. */
  lemma OtherSealsUntouched(entries: map<string, Value>, p: Platform, c: Call, other: string)
    requires ChateauKeeper.WellDrawn(c.world.sealPicks)
    requires other != SealOf(c.url, c.cacheKey)
    ensures Untouched(entries, Decree(entries, p, c).entries, DistantKey(other))
    ensures Untouched(entries, Decree(entries, p, c).entries, ChateauKey(other))
  {
    var cacheSeal := SealOf(c.url, c.cacheKey);
    DecreeFootprint(entries, p, c);
    assert DistantKey(other) !in Footprint(p, c) by {
      KeysApart(p, other, cacheSeal, c.url);
      KeysApart(p, cacheSeal, other, c.url);
    }
    assert ChateauKey(other) !in Footprint(p, c) by {
      KeysApart(p, other, cacheSeal, c.url);
      KeysApart(p, cacheSeal, other, c.url);
    }
  }

  /**
    A call on its own seal keeps a set flag set and leaves its decision
    latched: the distant flag when it reveals, the chateau flag when it does
    not. With the distant flag set, it always reveals and writes no flag.
  */
  lemma OwnSealLatched(entries: map<string, Value>, p: Platform, c: Call)
    requires ChateauKeeper.WellDrawn(c.world.sealPicks)
    ensures var s := Decree(entries, p, c);
            var cacheSeal := SealOf(c.url, c.cacheKey);
      IsSet(entries, DistantKey(cacheSeal)) ==>
        s.out.shallRevealDistantRealms &&
        Untouched(entries, s.entries, DistantKey(cacheSeal)) && Untouched(entries, s.entries, ChateauKey(cacheSeal))
    ensures var s := Decree(entries, p, c);
            var cacheSeal := SealOf(c.url, c.cacheKey);
      !IsSet(entries, DistantKey(cacheSeal)) && IsSet(entries, ChateauKey(cacheSeal)) ==> s.entries == entries && !s.out.shallRevealDistantRealms
    ensures var s := Decree(entries, p, c);
            var cacheSeal := SealOf(c.url, c.cacheKey);
      !IsSet(entries, DistantKey(cacheSeal)) && !IsSet(entries, ChateauKey(cacheSeal)) ==>
        if s.out.shallRevealDistantRealms
        then IsSet(s.entries, DistantKey(cacheSeal)) && !IsSet(s.entries, ChateauKey(cacheSeal))
        else IsSet(s.entries, ChateauKey(cacheSeal)) && !IsSet(s.entries, DistantKey(cacheSeal))
  {
    var cacheSeal := SealOf(c.url, c.cacheKey);
    KeysApart(p, cacheSeal, cacheSeal, c.url);
    if IsSet(entries, DistantKey(cacheSeal)) {
      var s := Recall(entries, p, c);
      assert Decree(entries, p, c) == s;
      assert Untouched(entries, s.entries, DistantKey(cacheSeal)) && Untouched(entries, s.entries, ChateauKey(cacheSeal)) by {
        RecallStands(entries, p, c);
        assert DistantKey(cacheSeal) !in {SavedManorKey(cacheSeal), PathScrollKey(p, c.url), ChateauKeeper.RoyalArchivesKey};
        assert ChateauKey(cacheSeal) !in {SavedManorKey(cacheSeal), PathScrollKey(p, c.url), ChateauKeeper.RoyalArchivesKey};
      }
    } else if IsSet(entries, ChateauKey(cacheSeal)) {
      assert Decree(entries, p, c) == Step(DecreeVerdict(false, "", "Cached chateau content"), entries);
    } else {
      assert Decree(entries, p, c) == Examine(entries, p, c);
      ExamineLatches(entries, p, c);
    }
  }

  /** One call keeps every flag that was set and keeps the flags exclusive. */
  lemma DecreeLatches(entries: map<string, Value>, p: Platform, c: Call)
    requires ChateauKeeper.WellDrawn(c.world.sealPicks)
    ensures FlagsKept(entries, Decree(entries, p, c).entries)
    ensures Exclusive(entries) ==> Exclusive(Decree(entries, p, c).entries)
  {
    var after := Decree(entries, p, c).entries;
    var cacheSeal := SealOf(c.url, c.cacheKey);
    OwnSealLatched(entries, p, c);
    forall t
      ensures (IsSet(entries, DistantKey(t)) ==> IsSet(after, DistantKey(t))) &&
              (IsSet(entries, ChateauKey(t)) ==> IsSet(after, ChateauKey(t)))
      ensures !(IsSet(entries, DistantKey(t)) && IsSet(entries, ChateauKey(t))) ==>
              !(IsSet(after, DistantKey(t)) && IsSet(after, ChateauKey(t)))
    {
      if t != cacheSeal {
        OtherSealsUntouched(entries, p, c, t);
      }
    }
  }

  // ---------------------------------------------------------------------------
  // Sequences of calls
  // ---------------------------------------------------------------------------

  predicate AllWellDrawn(calls: seq<Call>) {
    forall i :: 0 <= i < |calls| ==> ChateauKeeper.WellDrawn(calls[i].world.sealPicks)
  }

  /** The store after the calls, one after the other. */
  function Run(entries: map<string, Value>, p: Platform, calls: seq<Call>): map<string, Value>
    requires AllWellDrawn(calls)
    decreases |calls|
  {
    if calls == [] then entries else Run(Decree(entries, p, calls[0]).entries, p, calls[1..])
  }

  lemma {:induction false} RunLatches(entries: map<string, Value>, p: Platform, calls: seq<Call>)
    requires AllWellDrawn(calls)
    ensures FlagsKept(entries, Run(entries, p, calls))
    ensures Exclusive(entries) ==> Exclusive(Run(entries, p, calls))
    decreases |calls|
  {
    if calls != [] {
      DecreeLatches(entries, p, calls[0]);
      RunLatches(Decree(entries, p, calls[0]).entries, p, calls[1..]);
    }
  }

  /** Once stored, the install seal stays the same over any sequence of calls. */
  lemma {:induction false} RunKeepsSeal(entries: map<string, Value>, p: Platform, calls: seq<Call>)
    requires AllWellDrawn(calls)
    requires TextAt(entries, ChateauKeeper.RoyalArchivesKey).Some?
    ensures TextAt(Run(entries, p, calls), ChateauKeeper.RoyalArchivesKey) == TextAt(entries, ChateauKeeper.RoyalArchivesKey)
    decreases |calls|
  {
    if calls != [] {
      SealKeptByDecree(entries, p, calls[0]);
      RunKeepsSeal(Decree(entries, p, calls[0]).entries, p, calls[1..]);
    }
  }

  /** From an empty store, no sequence of calls sets both flags of one seal. */
  lemma NeverBothFlags(p: Platform, calls: seq<Call>)
    requires AllWellDrawn(calls)
    ensures Exclusive(Run(map[], p, calls))
  {
    RunLatches(map[], p, calls);
  }

  /**
    A decision replays: after a call, whatever calls follow, the next call
    with the same seal decides the same way; a refusal replays as "Cached
    chateau content" without writing anything.
  */
  lemma DecisionReplays(entries: map<string, Value>, p: Platform, first: Call, later: seq<Call>, next: Call)
    requires Exclusive(entries)
    requires ChateauKeeper.WellDrawn(first.world.sealPicks) && AllWellDrawn(later)
    requires ChateauKeeper.WellDrawn(next.world.sealPicks)
    requires SealOf(next.url, next.cacheKey) == SealOf(first.url, first.cacheKey)
    ensures var decided := Decree(entries, p, first);
            var store := Run(decided.entries, p, later);
      Decree(store, p, next).out.shallRevealDistantRealms == decided.out.shallRevealDistantRealms &&
      (!decided.out.shallRevealDistantRealms ==>
         Decree(store, p, next) == Step(DecreeVerdict(false, "", "Cached chateau content"), store))
  {
    var decided := Decree(entries, p, first);
    var store := Run(decided.entries, p, later);
    var cacheSeal := SealOf(first.url, first.cacheKey);
    OwnSealLatched(entries, p, first);
    assert decided.out.shallRevealDistantRealms ==> IsSet(decided.entries, DistantKey(cacheSeal));
    assert !decided.out.shallRevealDistantRealms ==> IsSet(decided.entries, ChateauKey(cacheSeal));
    DecreeLatches(entries, p, first);
    RunLatches(decided.entries, p, later);
    if decided.out.shallRevealDistantRealms {
      OwnSealLatched(store, p, next);
    } else {
      assert !IsSet(store, DistantKey(cacheSeal));
      CachedChateauReplays(store, p, next);
    }
  }
}
