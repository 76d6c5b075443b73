// The presentation state of src/App.tsx: which slide is shown, which gallery
// image is shown, whether the narration is playing and the published loudness.
// The transitions are first stated on values (NavState) and then carried out
// by the event handlers of the Presenter class.

module SlideShow {
  import opened AudioLevel

  /** The closed set of slide names. */
  datatype Slide = Intro | Profile | Mission | Goals | Achievements | History | Gallery

  /** `slides`: the navigation order. */
  const Slides: seq<Slide> := [Intro, Profile, Mission, Goals, Achievements, History, Gallery]

  /** Index of the last slide, `slides.length - 1`. */
  const LastSlide: nat := |Slides| - 1

  /** The `galleryImages` of the manager record App starts with. */
  const ManagerGallery: seq<string> := ["shankar-2.jpeg", "shankar-3.jpeg", "shankar-4.jpeg"]

  /** `slides.indexOf(slide)`: every slide name occurs in `slides`, so the index is never -1. */
  function IndexOf(s: Slide): (i: nat)
    ensures i < |Slides| && Slides[i] == s
  {
    match s
    case Intro => 0
    case Profile => 1
    case Mission => 2
    case Goals => 3
    case Achievements => 4
    case History => 5
    case Gallery => 6
  }

  /** No slide name occurs twice, so `indexOf` finds the position a slide was taken from. */
  lemma IndexOfSlides(i: nat)
    requires i < |Slides|
    ensures IndexOf(Slides[i]) == i
  {
  }

  datatype Direction = Next | Prev

  /** The navigation part of the state: the current slide and the gallery sub-index. */
  datatype NavState = NavState(slide: Slide, galleryIndex: int)

  /** `useState('intro')` and `useState(0)`. */
  const Initial: NavState := NavState(Intro, 0)

  /** The gallery index is a position of a gallery with `count` images (0 when there are none). */
  predicate ValidNav(v: NavState, count: nat)
  {
    0 <= v.galleryIndex && (v.galleryIndex == 0 || v.galleryIndex < count)
  }

  /** `changeSlide(dir)`: one step along `slides`, absorbed at either end; a real step resets the gallery. */
  function Navigate(v: NavState, dir: Direction): (r: NavState)
    ensures dir == Next && IndexOf(v.slide) < LastSlide ==> r == NavState(Slides[IndexOf(v.slide) + 1], 0)
    ensures dir == Prev && IndexOf(v.slide) > 0 ==> r == NavState(Slides[IndexOf(v.slide) - 1], 0)
    ensures dir == Next && IndexOf(v.slide) == LastSlide ==> r == v
    ensures dir == Prev && IndexOf(v.slide) == 0 ==> r == v
  {
    var index := IndexOf(v.slide);
    if dir == Next && index < |Slides| - 1 then NavState(Slides[index + 1], 0)
    else if dir == Prev && index > 0 then NavState(Slides[index - 1], 0)
    else v
  }

  /** A click on a slide dot: that slide, with the gallery reset, even when it is the current slide. */
  function Jump(v: NavState, target: Slide): (r: NavState)
    ensures r.slide == target && r.galleryIndex == 0
  {
    NavState(target, 0)
  }

  /** `changeGalleryImage(dir)` over a gallery of `count` images: one step, absorbed at either end. */
  function BrowseGallery(v: NavState, count: nat, dir: Direction): (r: NavState)
    ensures r.slide == v.slide
    ensures dir == Next && v.galleryIndex < count - 1 ==> r.galleryIndex == v.galleryIndex + 1
    ensures dir == Prev && v.galleryIndex > 0 ==> r.galleryIndex == v.galleryIndex - 1
    ensures dir == Next && v.galleryIndex >= count - 1 ==> r == v
    ensures dir == Prev && v.galleryIndex <= 0 ==> r == v
  {
    if dir == Next && v.galleryIndex < count - 1 then NavState(v.slide, v.galleryIndex + 1)
    else if dir == Prev && v.galleryIndex > 0 then NavState(v.slide, v.galleryIndex - 1)
    else v
  }

  /** The three navigation controls a viewer can press. */
  datatype NavEvent = SlideButton(dir: Direction) | SlideDot(target: Slide) | GalleryButton(galleryDir: Direction)

  /** The `onClick` wiring of the gallery buttons, the slide buttons and the slide dots: each press runs its control's transition. */
  function Apply(v: NavState, count: nat, e: NavEvent): NavState
  {
    match e
    case SlideButton(dir) => Navigate(v, dir)
    case SlideDot(target) => Jump(v, target)
    case GalleryButton(dir) => BrowseGallery(v, count, dir)
  }

  /** The state after a sequence of presses, in order. */
  function Run(v: NavState, count: nat, es: seq<NavEvent>): NavState
    decreases |es|
  {
    if es == [] then v else Run(Apply(v, count, es[0]), count, es[1..])
  }

  /** `n` presses of the same control. */
  function Presses(e: NavEvent, n: nat): (es: seq<NavEvent>)
    ensures |es| == n && forall i :: 0 <= i < n ==> es[i] == e
  {
    if n == 0 then [] else [e] + Presses(e, n - 1)
  }

  /** Every single press keeps the gallery index within the gallery. */
  lemma ApplyKeepsValid(v: NavState, count: nat, e: NavEvent)
    requires ValidNav(v, count)
    ensures ValidNav(Apply(v, count, e), count)
  {
  }

  /** Any sequence of presses keeps the gallery index within the gallery. */
  lemma {:induction false} RunKeepsValid(v: NavState, count: nat, es: seq<NavEvent>)
    requires ValidNav(v, count)
    ensures ValidNav(Run(v, count, es), count)
    decreases |es|
  {
    if es != [] {
      ApplyKeepsValid(v, count, es[0]);
      RunKeepsValid(Apply(v, count, es[0]), count, es[1..]);
    }
  }

  /** Whenever a press changes the slide, the gallery index is 0 afterwards. */
  lemma SlideChangeResetsGallery(v: NavState, count: nat, e: NavEvent)
    ensures Apply(v, count, e).slide != v.slide ==> Apply(v, count, e).galleryIndex == 0
  {
  }

  /** A forward step that happened is undone by a backward step, up to the gallery reset. */
  lemma NextThenPrev(v: NavState)
    requires IndexOf(v.slide) < LastSlide
    ensures Navigate(Navigate(v, Next), Prev) == NavState(v.slide, 0)
  {
  }

  /** A backward step that happened is undone by a forward step, up to the gallery reset. */
  lemma PrevThenNext(v: NavState)
    requires IndexOf(v.slide) > 0
    ensures Navigate(Navigate(v, Prev), Next) == NavState(v.slide, 0)
  {
  }

  /** Gallery steps that happened are undone by the opposite step. */
  lemma GalleryNextThenPrev(v: NavState, count: nat)
    requires ValidNav(v, count) && v.galleryIndex < count - 1
    ensures BrowseGallery(BrowseGallery(v, count, Next), count, Prev) == v
  {
  }

  /** `n` presses of "next" from slide `i` reach slide `min(i + n, last)`; the gallery resets iff a step happened. */
  lemma {:induction false} NextPressesReach(i: nat, g: int, count: nat, n: nat)
    requires i < |Slides|
    ensures Run(NavState(Slides[i], g), count, Presses(SlideButton(Next), n)).slide ==
            Slides[if i + n < LastSlide then i + n else LastSlide]
    ensures Run(NavState(Slides[i], g), count, Presses(SlideButton(Next), n)).galleryIndex ==
            if n > 0 && i < LastSlide then 0 else g
    decreases n
  {
    var es := Presses(SlideButton(Next), n);
    if n > 0 {
      IndexOfSlides(i);
      var w := Apply(NavState(Slides[i], g), count, es[0]);
      assert es[1..] == Presses(SlideButton(Next), n - 1);
      if i < LastSlide {
        assert w == NavState(Slides[i + 1], 0);
        NextPressesReach(i + 1, 0, count, n - 1);
      } else {
        assert w == NavState(Slides[i], g);
        NextPressesReach(i, g, count, n - 1);
      }
    }
  }

  /** Every slide can be reached from the initial state with the "next" button alone. */
  lemma EverySlideReachable(s: Slide, count: nat)
    ensures Run(Initial, count, Presses(SlideButton(Next), IndexOf(s))) == NavState(s, 0)
  {
    NextPressesReach(0, 0, count, IndexOf(s));
  }

  /**
   * The App component's state. `currentSlide`, `galleryIndex`, `isPlaying` and
   * `volume` are its `useState` values; `galleryImages` is the fixed manager record's list.
   * `audioPresent` says whether `audioRef.current` holds the rendered `<audio>` element,
   * which stays fixed once the component is mounted.
   */
  class Presenter {
    var currentSlide: Slide
    var galleryIndex: int
    var isPlaying: bool
    var volume: real
    const galleryImages: seq<string>
    const audioPresent: bool

    function Nav(): NavState
      reads this
    {
      NavState(currentSlide, galleryIndex)
    }

    ghost predicate Valid()
      reads this
    {
      ValidNav(Nav(), |galleryImages|) && 0.0 <= volume <= 1.0
    }

    constructor (images: seq<string>, audioMounted: bool)
      ensures Valid() && galleryImages == images && audioPresent == audioMounted
      ensures Nav() == Initial && !isPlaying && volume == 0.0
    {
      galleryImages := images;
      audioPresent := audioMounted;
      currentSlide := Intro;
      galleryIndex := 0;
      isPlaying := false;
      volume := 0.0;
    }

    /** The previous/next slide buttons. */
    method ChangeSlide(dir: Direction)
      requires Valid()
      modifies this
      ensures Valid() && Nav() == Navigate(old(Nav()), dir)
      ensures isPlaying == old(isPlaying) && volume == old(volume)
    {
      var index := IndexOf(currentSlide);
      if dir == Next && index < |Slides| - 1 {
        currentSlide := Slides[index + 1];
        galleryIndex := 0;
      }
      if dir == Prev && index > 0 {
        currentSlide := Slides[index - 1];
        galleryIndex := 0;
      }
    }

    /** The `onClick` of the slide indicator dot for `slide`. */
    method ClickDot(slide: Slide)
      requires Valid()
      modifies this
      ensures Valid() && Nav() == Jump(old(Nav()), slide)
      ensures isPlaying == old(isPlaying) && volume == old(volume)
    {
      currentSlide := slide;
      galleryIndex := 0;
    }

    /** The previous/next image buttons of the gallery slide. */
    method ChangeGalleryImage(dir: Direction)
      requires Valid()
      modifies this
      ensures Valid() && Nav() == BrowseGallery(old(Nav()), |galleryImages|, dir)
      ensures isPlaying == old(isPlaying) && volume == old(volume)
    {
      if dir == Next && galleryIndex < |galleryImages| - 1 {
        galleryIndex := galleryIndex + 1;
      }
      if dir == Prev && galleryIndex > 0 {
        galleryIndex := galleryIndex - 1;
      }
    }

    /**
     * `togglePlayPause`: nothing without an audio element; otherwise the flag flips,
     * whatever becomes of the `play()` request. The loudness is left as it was.
     */
    method TogglePlayPause()
      requires Valid()
      modifies this
      ensures Valid()
      ensures isPlaying == (if audioPresent then !old(isPlaying) else old(isPlaying))
      ensures Nav() == old(Nav()) && volume == old(volume)
    {
      if !audioPresent {
        return;
      }
      isPlaying := !isPlaying;
    }

    /**
     * The first-pointer-down handler `unlockAudio`. `audioRef.current?.play()` yields
     * nothing to await when there is no audio element, which counts as success; a
     * rejected `play()` is swallowed and leaves the flag as it was.
     */
    method UnlockAudio(playResolves: bool)
      requires Valid()
      modifies this
      ensures Valid()
      ensures isPlaying == (if !audioPresent || playResolves then true else old(isPlaying))
      ensures Nav() == old(Nav()) && volume == old(volume)
    {
      if !audioPresent || playResolves {
        isPlaying := true;
      }
    }

    /**
     * One `detectVolume` frame, given the analyser's byte snapshot `bins`. The
     * analysis effect starts the frame loop only when the audio element exists
     * and the flag is set.
     */
    method DetectVolume(bins: seq<Byte>)
      requires Valid() && audioPresent && isPlaying
      requires |bins| == FrequencyBinCount
      modifies this
      ensures Valid() && volume == Loudness(bins)
      ensures Nav() == old(Nav()) && isPlaying == old(isPlaying)
    {
      volume := Loudness(bins);
    }
  }

  /**
   * A scenario over the controls' contracts, not part of the app: a viewing
   * session on App's own gallery with the audio element mounted. Its two
   * `TogglePlayPause` steps cannot happen in the app as written, whose
   * play/pause button is commented out.
   */
  method Session(snapshot: seq<Byte>)
    requires |snapshot| == FrequencyBinCount
  {
    var p := new Presenter(ManagerGallery, true);
    p.ChangeSlide(Prev);
    assert p.Nav() == Initial;
    p.ChangeSlide(Next);
    assert p.currentSlide == Profile;
    p.ClickDot(Gallery);
    p.ChangeGalleryImage(Next);
    p.ChangeGalleryImage(Next);
    p.ChangeGalleryImage(Next);
    assert p.galleryIndex == 2;
    p.ChangeSlide(Next);
    assert p.Nav() == NavState(Gallery, 2);
    p.ChangeSlide(Prev);
    assert p.Nav() == NavState(History, 0);
    p.UnlockAudio(false);
    assert !p.isPlaying;
    p.TogglePlayPause();
    assert p.isPlaying;
    p.DetectVolume(snapshot);
    assert 0.0 <= p.volume <= 1.0;
    p.TogglePlayPause();
    assert !p.isPlaying && p.volume == Loudness(snapshot);
  }
}
