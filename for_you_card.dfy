// The full-screen For You card: the labels it derives from its item, its
// video element's playback as driven by two effects and the shared store,
// the 15-second rewind, and which callback each of its buttons invokes.

module ForYouCard {
  import opened Wrappers
  import opened JsValues
  import opened FeedTypes
  import opened FeedStores

  // ---------------------------------------------------------------------------
  // Labels

  /** The type badge: "Podcast" for podcasts and "Audio" for every other type. */
  function BadgeLabel(t: ContentType): (badge: string)
    ensures badge == "Podcast" <==> t == Podcast
    ensures badge == "Audio" <==> t != Podcast
  {
    if t == Podcast then "Podcast" else "Audio"
  }

  /**
   * `m:ss` for a whole number of seconds: JavaScript's `Math.floor(d / 60)`,
   * a colon, and `d % 60` (which keeps the sign of `d`) padded on the left
   * with '0' to two characters.
   */
  function MinutesSeconds(d: int): string {
    IntToString(FloorDiv(d, 60)) + ":" + PadStart(IntToString(TruncRem(d, 60)), 2, '0')
  }

  /** Reads a `m:ss` label back: digits, a colon, then exactly two digits below 60. */
  function ParseMinutesSeconds(caption: string): Option<int> {
    var (m, s) := BreakAt(caption, ':');
    if m != "" && AllDigits(m) && |s| == 2 && AllDigits(s) && ParseDecimal(s) < 60
    then Some(ParseDecimal(m) * 60 + ParseDecimal(s))
    else None
  }

  lemma NoColonInDigits(s: string)
    requires AllDigits(s)
    ensures ':' !in s
  {
  }

  /** The seconds field of a non-negative duration: two digits whose value is `r`. */
  lemma {:induction false} PaddedSecondsValue(r: nat)
    requires r < 60
    ensures var s := PadStart(IntToString(r), 2, '0'); |s| == 2 && AllDigits(s) && ParseDecimal(s) == r
  {
    var t := NatToString(r);
    var s := PadStart(t, 2, '0');
    if r < 10 {
      assert t == [DigitChar(r)];
      assert s == ['0', DigitChar(r)];
      assert s[..1] == ['0'];
      assert ['0'][..0] == [];
      assert ParseDecimal(['0']) == 0;
    } else {
      assert t == NatToString(r / 10) + [DigitChar(r % 10)];
      assert |NatToString(r / 10)| == 1;
      assert s == t;
      ParseDecimalOfNatToString(r);
    }
  }

  lemma MinutesSecondsOfNat(d: int)
    requires d >= 0
    ensures MinutesSeconds(d) == NatToString(d / 60) + [':'] + PadStart(IntToString(d % 60), 2, '0')
  {
  }

  lemma ParseMinutesSecondsOf(m: string, s: string, minutes: nat, seconds: nat, total: int)
    requires m != "" && AllDigits(m) && ParseDecimal(m) == minutes
    requires |s| == 2 && AllDigits(s) && ParseDecimal(s) == seconds && seconds < 60
    requires total == minutes * 60 + seconds
    ensures ParseMinutesSeconds(m + [':'] + s) == Some(total)
  {
    NoColonInDigits(m);
    BreakAtFirstSep(m, s, ':');
  }

  /** For a non-negative duration the `m:ss` label reads back as exactly that many seconds. */
  lemma {:induction false} MinutesSecondsRoundTrip(d: int)
    requires d >= 0
    ensures ParseMinutesSeconds(MinutesSeconds(d)) == Some(d)
  {
    var m := NatToString(d / 60);
    var s := PadStart(IntToString(d % 60), 2, '0');
    var q: nat, r: nat := d / 60, d % 60;
    assert q * 60 + r == d;
    MinutesSecondsOfNat(d);
    PaddedSecondsValue(r);
    assert |s| == 2 && AllDigits(s) && ParseDecimal(s) == r;
    ParseDecimalOfNatToString(q);
    assert ParseDecimal(m) == q;
    ParseMinutesSecondsOf(m, s, q, r, d);
  }

  /** What `{item.duration_sec && <span>…</span>}` puts on the card. */
  datatype DurationNode =
    | NothingRendered      // undefined or null: React renders nothing
    | StrayText(text: string) // the falsy number 0 is itself rendered, as text
    | DurationSpan(caption: string)

  /** The duration element as written on the card. */
  function RenderedDuration(d: Option<int>): (node: DurationNode)
    ensures node.NothingRendered? <==> d.None?
    ensures node.StrayText? <==> d == Some(0)
    ensures node.DurationSpan? ==> d.Some? && d.value != 0 && node.caption == MinutesSeconds(d.value)
  {
    match d
    case None => NothingRendered
    case Some(sec) => if sec == 0 then StrayText(IntToString(0)) else DurationSpan(MinutesSeconds(sec))
  }

  /** A zero-length item shows a lone "0" where the duration would be. */
  lemma ZeroDurationRendersStrayZero()
    ensures RenderedDuration(Some(0)) == StrayText("0")
  {
  }

  /**
   * The duration label as intended: none when the duration is missing or 0,
   * otherwise the `m:ss` label, which for a positive duration reads back as
   * that duration with a two-digit seconds field.
   */
  function DurationLabel(d: Option<int>): (caption: Option<string>)
    ensures caption.Some? <==> d.Some? && d.value != 0
    ensures caption.Some? && d.value > 0 ==> ParseMinutesSeconds(caption.value) == Some(d.value)
  {
    if d.None? || d.value == 0 then None
    else
      MinutesSecondsRoundTripIfPositive(d.value);
      Some(MinutesSeconds(d.value))
  }

  lemma MinutesSecondsRoundTripIfPositive(d: int)
    ensures d > 0 ==> ParseMinutesSeconds(MinutesSeconds(d)) == Some(d)
  {
    if d > 0 {
      MinutesSecondsRoundTrip(d);
    }
  }

  /** The play overlay is shown exactly on the active card while playback is off. */
  function ShowPlayOverlay(isActive: bool, isPlaying: bool): bool {
    isActive && !isPlaying
  }

  // ---------------------------------------------------------------------------
  // Playback

  /** How a `play()` call turns out: it starts, or its promise is rejected (autoplay blocked). */
  datatype PlayResult = PlayStarted | PlayRejected

  /** The parts of a `<video>` element the card changes. */
  class MediaElement {
    var paused: bool
    var currentTime: real

    constructor ()
      ensures paused && currentTime == 0.0
    {
      paused := true;
      currentTime := 0.0;
    }

    /** `play()`: playback starts unless the promise is rejected, which leaves the element as it was. */
    method Play(result: PlayResult)
      modifies this
      ensures paused == (result.PlayRejected? && old(paused))
      ensures currentTime == old(currentTime)
    {
      if result == PlayStarted {
        paused := false;
      }
    }

    method Pause()
      modifies this
      ensures paused && currentTime == old(currentTime)
    {
      paused := true;
    }
  }

  /** The store's `isPlaying` next to the video's `paused`. */
  datatype Playback = Playback(playing: bool, paused: bool)

  /**
   * The autoplay effect, run whenever `isActive` changes: an active card
   * plays and sets `isPlaying`, which a rejected `play()` clears again; an
   * inactive card pauses and clears `isPlaying`.
   */
  function AfterAutoplay(active: bool, s: Playback, result: PlayResult): (t: Playback)
    ensures !active ==> t == Playback(false, true)
    ensures active ==> (t.playing <==> result == PlayStarted) && (t.paused <==> result == PlayRejected && s.paused)
  {
    if active then Playback(result == PlayStarted, result == PlayRejected && s.paused)
    else Playback(false, true)
  }

  /**
   * The play/pause effect, run whenever `isPlaying` or `isActive` changes,
   * with the `isPlaying` of the render that scheduled it: on an inactive
   * card nothing; otherwise play (clearing `isPlaying` if rejected) or pause.
   */
  function AfterPlayPause(active: bool, rendered: bool, s: Playback, result: PlayResult): (t: Playback)
    ensures !active ==> t == s
    ensures active && !rendered ==> t == s.(paused := true)
    ensures active && rendered && result == PlayStarted ==> t == s.(paused := false)
    ensures active && rendered && result == PlayRejected ==> t == s.(playing := false)
  {
    if !active then s
    else if rendered then
      (if result == PlayStarted then s.(paused := false) else s.(playing := false))
    else s.(paused := true)
  }

  /** A card that becomes inactive ends paused with `isPlaying` off, whatever either `play()` would do. */
  lemma DeactivationStops(s: Playback, rendered: bool, autoplay: PlayResult, playback: PlayResult)
    ensures AfterPlayPause(false, rendered, AfterAutoplay(false, s, autoplay), playback) == Playback(false, true)
  {
  }

  /**
   * A card that becomes active while the store says nothing plays is first
   * paused again by the play/pause effect, which saw the old `isPlaying`;
   * the next render, triggered by `setPlaying(true)`, plays it. When both
   * `play()` calls start, the card ends playing with `isPlaying` on.
   */
  lemma ActivationPlaysAfterRerender(s: Playback)
    requires !s.playing
    ensures var first := AfterPlayPause(true, false, AfterAutoplay(true, s, PlayStarted), PlayStarted);
            first == Playback(true, true) &&
            AfterPlayPause(true, first.playing, first, PlayStarted) == Playback(true, false)
  {
  }

  /** Blocked autoplay leaves the card paused with `isPlaying` off, so the overlay shows. */
  lemma BlockedAutoplayShowsOverlay(s: Playback, rendered: bool)
    ensures var t := AfterPlayPause(true, rendered, AfterAutoplay(true, s, PlayRejected), PlayRejected);
            !t.playing && ShowPlayOverlay(true, t.playing)
  {
  }

  /** `currentTime / duration * 100`: within 0 to 100 while the time lies within the video, and 100 at its end. */
  function ProgressPercent(currentTime: real, duration: real): (percent: real)
    requires duration > 0.0
    ensures 0.0 <= currentTime <= duration ==> 0.0 <= percent <= 100.0
    ensures currentTime == duration ==> percent == 100.0
    ensures currentTime == 0.0 ==> percent == 0.0
  {
    currentTime / duration * 100.0
  }

  /** Rewinding by 15 seconds, never before the start. */
  function Rewound(t: real): (r: real)
    ensures r >= 0.0
    ensures r == 0.0 || r == t - 15.0
    ensures t >= 15.0 ==> r == t - 15.0
    ensures t >= 0.0 ==> r <= t
  {
    if t - 15.0 > 0.0 then t - 15.0 else 0.0
  }

  // ---------------------------------------------------------------------------
  // Buttons

  /** The clickable parts of a card. */
  datatype ClickTarget = LikeButton | CommentButton | BookmarkButton | ShareButton | RewindButton | VideoSurface | PlayOverlay

  /** The callbacks a card receives from its page. */
  datatype Callback = OnLike | OnBookmark | OnShare

  /**
   * The callbacks one click invokes: the like, bookmark and share buttons
   * each invoke their own callback once and no other; nothing else invokes any.
   */
  function ClickCallbacks(target: ClickTarget): (calls: seq<Callback>)
    ensures |calls| <= 1
    ensures OnLike in calls <==> target == LikeButton
    ensures OnBookmark in calls <==> target == BookmarkButton
    ensures OnShare in calls <==> target == ShareButton
  {
    match target
    case LikeButton => [OnLike]
    case BookmarkButton => [OnBookmark]
    case ShareButton => [OnShare]
    case _ => []
  }

  /** The item has a truthy media URL, so the card holds a `<video>` element. */
  predicate HasVideo(item: ContentItem) {
    item.mediaUrl.Some? && item.mediaUrl.value != ""
  }

  // ---------------------------------------------------------------------------
  // The card

  class Card {
    const item: ContentItem
    const store: FeedStore
    const video: MediaElement?
    /** The `isActive` prop of the last render. */
    var isActive: bool
    /** The store's `isPlaying` as the last render saw it. */
    var renderedPlaying: bool

    ghost predicate Valid()
      reads this
    {
      video != null <==> HasVideo(item)
    }

    /** The first render, before its effects have run. */
    constructor (item: ContentItem, isActive: bool, store: FeedStore)
      ensures Valid() && (video != null ==> fresh(video))
      ensures this.item == item && this.isActive == isActive && this.store == store
      ensures renderedPlaying == store.isPlaying
    {
      this.item := item;
      this.store := store;
      this.isActive := isActive;
      renderedPlaying := store.isPlaying;
      if HasVideo(item) {
        video := new MediaElement();
      } else {
        video := null;
      }
    }

    /** The liked flag shown: whether the item's id is in the store's liked set. */
    function IsLiked(): bool
      reads this, store
    {
      item.id in store.likedIds
    }

    /** The bookmarked flag shown: whether the item's id is in the store's bookmarked set. */
    function IsBookmarked(): bool
      reads this, store
    {
      item.id in store.bookmarkedIds
    }

    function PlaybackState(): Playback
      requires video != null
      reads this, store, video
    {
      Playback(store.isPlaying, video.paused)
    }

    method AutoplayEffect(result: PlayResult)
      requires video != null
      modifies store, video
      ensures PlaybackState() == AfterAutoplay(isActive, old(PlaybackState()), result)
      ensures store.State() == old(store.State()).(isPlaying := PlaybackState().playing)
      ensures video.currentTime == old(video.currentTime)
    {
      if isActive {
        video.Play(result);
        store.SetPlaying(true);
        if result == PlayRejected {
          store.SetPlaying(false);
        }
      } else {
        video.Pause();
        store.SetPlaying(false);
      }
    }

    method PlayPauseEffect(rendered: bool, result: PlayResult)
      requires video != null
      modifies store, video
      ensures PlaybackState() == AfterPlayPause(isActive, rendered, old(PlaybackState()), result)
      ensures store.State() == old(store.State()).(isPlaying := PlaybackState().playing)
      ensures video.currentTime == old(video.currentTime)
    {
      if !isActive {
        return;
      }
      if rendered {
        video.Play(result);
        if result == PlayRejected {
          store.SetPlaying(false);
        }
      } else {
        video.Pause();
      }
    }

    /** The effects of the first render: both run, the autoplay effect first. */
    method Mount(autoplay: PlayResult, playback: PlayResult)
      requires Valid()
      modifies store, video
      ensures video == null ==> store.State() == old(store.State())
      ensures video != null ==>
        PlaybackState() == AfterPlayPause(isActive, renderedPlaying, AfterAutoplay(isActive, old(PlaybackState()), autoplay), playback) &&
        store.State() == old(store.State()).(isPlaying := PlaybackState().playing) &&
        video.currentTime == old(video.currentTime)
    {
      if video != null {
        AutoplayEffect(autoplay);
        PlayPauseEffect(renderedPlaying, playback);
      }
    }

    /**
     * A later render with prop `active`: each effect runs only when one of
     * its dependencies differs from the previous render, the autoplay
     * effect before the play/pause effect.
     */
    method Rerender(active: bool, autoplay: PlayResult, playback: PlayResult)
      requires Valid()
      modifies this, store, video
      ensures isActive == active && renderedPlaying == old(store.isPlaying)
      ensures video == null ==> store.State() == old(store.State())
      ensures video != null ==>
        var activeChanged := active != old(isActive);
        var s1 := if activeChanged then AfterAutoplay(active, old(PlaybackState()), autoplay) else old(PlaybackState());
        var s2 := if activeChanged || old(store.isPlaying) != old(renderedPlaying)
                  then AfterPlayPause(active, old(store.isPlaying), s1, playback) else s1;
        PlaybackState() == s2 &&
        store.State() == old(store.State()).(isPlaying := s2.playing) &&
        video.currentTime == old(video.currentTime)
    {
      var activeChanged := active != isActive;
      var playingChanged := store.isPlaying != renderedPlaying;
      isActive := active;
      renderedPlaying := store.isPlaying;
      if video != null {
        if activeChanged {
          AutoplayEffect(autoplay);
        }
        if activeChanged || playingChanged {
          PlayPauseEffect(renderedPlaying, playback);
        }
      }
    }

    /** The rewind button: 15 seconds back, clamped at the start; playback is not touched. */
    method HandleRewind()
      modifies video
      ensures video != null ==> video.currentTime == Rewound(old(video.currentTime)) && video.paused == old(video.paused)
    {
      if video != null {
        video.currentTime := Rewound(video.currentTime);
      }
    }

    /** `onTimeUpdate`: the store's progress becomes the played percentage of the video. */
    method HandleTimeUpdate(duration: real)
      requires duration > 0.0
      modifies store
      ensures video != null ==> store.State() == old(store.State()).(progress := ProgressPercent(video.currentTime, duration))
      ensures video == null ==> store.State() == old(store.State())
    {
      if video != null {
        store.SetProgress(ProgressPercent(video.currentTime, duration));
      }
    }

    /**
     * One click on `target`: the callbacks it invokes, and what it changes
     * here. The rewind button rewinds; the video surface (present only with
     * a video) and the overlay (present only while shown) toggle `isPlaying`.
     */
    method Click(target: ClickTarget) returns (calls: seq<Callback>)
      modifies store, video
      ensures calls == ClickCallbacks(target)
      ensures target == RewindButton && video != null ==>
        video.currentTime == Rewound(old(video.currentTime)) && video.paused == old(video.paused)
      ensures target != RewindButton && video != null ==> unchanged(video)
      ensures (target == VideoSurface && video != null) || (target == PlayOverlay && old(ShowPlayOverlay(isActive, store.isPlaying)))
        ==> store.State() == old(store.State()).(isPlaying := !old(store.isPlaying))
      ensures !((target == VideoSurface && video != null) || (target == PlayOverlay && old(ShowPlayOverlay(isActive, store.isPlaying))))
        ==> store.State() == old(store.State())
    {
      calls := ClickCallbacks(target);
      if target == RewindButton {
        HandleRewind();
      } else if target == VideoSurface && video != null {
        store.TogglePlay();
      } else if target == PlayOverlay && ShowPlayOverlay(isActive, store.isPlaying) {
        store.TogglePlay();
      }
    }
  }

  /**
   * The liked flag a card shows follows the store: toggling an id's like
   * flips the flag on the card of that item, leaves it on every other card,
   * and leaves every card's bookmarked flag.
   */
  twostate lemma LikeToggleUpdatesShownFlags(card: Card, id: string)
    requires card.store.State() == old(card.store.State()).(likedIds := Toggle(old(card.store.likedIds), id))
    ensures card.IsLiked() == (if id == card.item.id then !old(card.IsLiked()) else old(card.IsLiked()))
    ensures card.IsBookmarked() == old(card.IsBookmarked())
  {
  }

  /** The same for a bookmark toggle and the bookmarked flag. */
  twostate lemma BookmarkToggleUpdatesShownFlags(card: Card, id: string)
    requires card.store.State() == old(card.store.State()).(bookmarkedIds := Toggle(old(card.store.bookmarkedIds), id))
    ensures card.IsBookmarked() == (if id == card.item.id then !old(card.IsBookmarked()) else old(card.IsBookmarked()))
    ensures card.IsLiked() == old(card.IsLiked())
  {
  }
}
