/**
 * The process-wide feed store. Its implementation is not part of this model;
 * it is specified by how the feed components use it: two shadow sets of ids
 * flipped by membership toggles, and scalar fields set by assignment.
 */
module FeedStores {

  /** A snapshot of every field of the store. */
  datatype StoreState = StoreState(
    likedIds: set<string>,
    bookmarkedIds: set<string>,
    activeIndex: int,
    isPlaying: bool,
    progress: real,
    playbackSpeed: real
  )

  /** Flips the membership of `id` and of nothing else. */
  function Toggle(ids: set<string>, id: string): (r: set<string>)
    ensures id in r <==> id !in ids
    ensures forall x :: x != id ==> (x in r <==> x in ids)
  {
    if id in ids then ids - {id} else ids + {id}
  }

  /** A toggle is its own inverse. */
  lemma ToggleTwice(ids: set<string>, id: string)
    ensures Toggle(Toggle(ids, id), id) == ids
  {
  }

  class FeedStore {
    var likedIds: set<string>
    var bookmarkedIds: set<string>
    var activeIndex: int
    var isPlaying: bool
    var progress: real
    var playbackSpeed: real

    function State(): StoreState
      reads this
    {
      StoreState(likedIds, bookmarkedIds, activeIndex, isPlaying, progress, playbackSpeed)
    }

    /** The store's initial values are not part of this model, so they are given. */
    constructor (initial: StoreState)
      ensures State() == initial
    {
      likedIds := initial.likedIds;
      bookmarkedIds := initial.bookmarkedIds;
      activeIndex := initial.activeIndex;
      isPlaying := initial.isPlaying;
      progress := initial.progress;
      playbackSpeed := initial.playbackSpeed;
    }

    method ToggleLike(id: string)
      modifies this
      ensures State() == old(State()).(likedIds := Toggle(old(likedIds), id))
    {
      likedIds := Toggle(likedIds, id);
    }

    method ToggleBookmark(id: string)
      modifies this
      ensures State() == old(State()).(bookmarkedIds := Toggle(old(bookmarkedIds), id))
    {
      bookmarkedIds := Toggle(bookmarkedIds, id);
    }

    method SetActiveIndex(i: int)
      modifies this
      ensures State() == old(State()).(activeIndex := i)
    {
      activeIndex := i;
    }

    method ResetProgress()
      modifies this
      ensures State() == old(State()).(progress := 0.0)
    {
      progress := 0.0;
    }

    method SetProgress(p: real)
      modifies this
      ensures State() == old(State()).(progress := p)
    {
      progress := p;
    }

    method SetPlaying(playing: bool)
      modifies this
      ensures State() == old(State()).(isPlaying := playing)
    {
      isPlaying := playing;
    }

    method TogglePlay()
      modifies this
      ensures State() == old(State()).(isPlaying := !old(isPlaying))
    {
      isPlaying := !isPlaying;
    }
  }
}
