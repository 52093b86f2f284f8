/** The browsing-session tracker (src/analytics/session-tracker.ts): counters of page views,
    searches and cart changes since the session started, summarised as a `SessionPattern` and
    kept under the AsyncStorage key 'session_pattern'. Clock readings are parameters. */
module Session {
  import opened Common
  import opened Types
  import opened Storage

  const SessionPatternKey := "session_pattern"

  class SessionTracker {
    const sessionStart: int
    var pagesViewed: nat
    var searchCount: nat
    var cartMods: nat
    /** The 'session_pattern' entry of AsyncStorage. */
    const store: StoredValue<SessionPattern>

    /** A tracker created at time `now`, with all counters zero. */
    constructor (now: int, store: StoredValue<SessionPattern>)
      ensures sessionStart == now && this.store == store
      ensures pagesViewed == 0 && searchCount == 0 && cartMods == 0
    {
      sessionStart := now;
      this.store := store;
      pagesViewed := 0;
      searchCount := 0;
      cartMods := 0;
    }

    method RecordPageView()
      modifies this
      ensures pagesViewed == old(pagesViewed) + 1
      ensures searchCount == old(searchCount) && cartMods == old(cartMods)
    {
      pagesViewed := pagesViewed + 1;
    }

    method RecordSearch()
      modifies this
      ensures searchCount == old(searchCount) + 1
      ensures pagesViewed == old(pagesViewed) && cartMods == old(cartMods)
    {
      searchCount := searchCount + 1;
    }

    method RecordCartModification()
      modifies this
      ensures cartMods == old(cartMods) + 1
      ensures pagesViewed == old(pagesViewed) && searchCount == old(searchCount)
    {
      cartMods := cartMods + 1;
    }

    /** `getPattern` at time `now`. */
    function Pattern(now: int): (r: SessionPattern)
      reads this
      ensures now >= sessionStart ==> r.timeOnSite >= 0
      ensures r.timeOnSite < 30000 <==> now < sessionStart + 30000
    {
      SessionPattern(now - sessionStart, pagesViewed, searchCount, cartMods)
    }

    /** `loadSavedPattern`: what is stored, if anything; unparseable text throws. */
    function LoadSavedPattern(): (r: Result<Option<SessionPattern>, ParseError>)
      reads this, store
      ensures r.Err? <==> store.content.Unreadable?
    {
      ParseOrThrow(store.content)
    }

    /** `savePattern` at time `now`: the stored pattern is the current one and reads back as it. */
    method SavePattern(now: int)
      modifies store
      ensures store.content == Saved(Pattern(now))
      ensures LoadSavedPattern() == Ok(Some(Pattern(now)))
    {
      var pattern := Pattern(now);
      store.SetItem(pattern);
    }
  }

  /** A pattern taken later differs only in a longer time on site. */
  lemma PatternGrowsWithTime(t: SessionTracker, now: int, later: int)
    requires now <= later
    ensures t.Pattern(later).timeOnSite - t.Pattern(now).timeOnSite == later - now
    ensures t.Pattern(later).(timeOnSite := 0) == t.Pattern(now).(timeOnSite := 0)
  {
  }
}
