/**
 * The slide deck's navigation state machine: a 1-based slide position bounded by the
 * number of slides, a fixed table of chapters, the active/prev tag of every slide
 * element, the sidebar flag, and the keyboard and click dispatch onto these operations.
 */
module Navigation {
  import opened Wrappers
  import opened JsText

  const TotalSlides: int := 24

  /** The bound `nextChapter` compares against; written as a literal in the deck. */
  const LastChapter: int := 8

  /** An inclusive range of slide numbers. */
  datatype Range = Range(start: int, end: int)

  /** The chapter table; chapter `c` is `Chapters[c - 1]`, keys ascending. */
  const Chapters: seq<Range> := [
    Range(1, 2), Range(3, 5), Range(6, 9), Range(10, 12),
    Range(13, 15), Range(16, 19), Range(20, 22), Range(23, 24)
  ]

  predicate IsChapter(c: int) {
    1 <= c <= |Chapters|
  }

  predicate InChapter(slide: int, c: int) {
    IsChapter(c) && Chapters[c - 1].start <= slide <= Chapters[c - 1].end
  }

  // ---------------------------------------------------------------------------
  // Chapter lookup
  // ---------------------------------------------------------------------------

  /**
   * The search of `getCurrentChapter` from chapter `k` on: the first chapter, in key order,
   * whose range holds `slide`, or chapter 1 when none does.
   */
  function FindChapter(slide: int, k: int): (c: int)
    requires 1 <= k <= |Chapters| + 1
    ensures IsChapter(c)
    ensures (exists j :: k <= j <= |Chapters| && InChapter(slide, j)) ==>
      k <= c && InChapter(slide, c) && forall j :: k <= j < c ==> !InChapter(slide, j)
    ensures (forall j :: k <= j <= |Chapters| ==> !InChapter(slide, j)) ==> c == 1
    decreases |Chapters| + 1 - k
  {
    if k > |Chapters| then 1
    else if InChapter(slide, k) then k
    else FindChapter(slide, k + 1)
  }

  /** `getCurrentChapter()` for the position `slide`. */
  function ChapterOf(slide: int): int {
    FindChapter(slide, 1)
  }

  /** Ranges laid end to end, each non-empty, covering exactly `lo..hi`. */
  ghost predicate Tiles(t: seq<Range>, lo: int, hi: int) {
    |t| > 0 && t[0].start == lo && t[|t| - 1].end == hi
    && (forall i :: 0 <= i < |t| ==> t[i].start <= t[i].end)
    && (forall i :: 0 <= i < |t| - 1 ==> t[i + 1].start == t[i].end + 1)
  }

  /** A tiling covers every number between its ends. */
  lemma {:induction false} TilingCovers(t: seq<Range>, lo: int, hi: int, s: int)
    requires Tiles(t, lo, hi) && lo <= s <= hi
    ensures exists i :: 0 <= i < |t| && t[i].start <= s <= t[i].end
    decreases |t|
  {
    if s > t[0].end {
      assert 0 < 1 < |t|;
      assert Tiles(t[1..], t[0].end + 1, hi);
      TilingCovers(t[1..], t[0].end + 1, hi, s);
      var i :| 0 <= i < |t[1..]| && t[1..][i].start <= s <= t[1..][i].end;
      assert t[i + 1] == t[1..][i];
    }
  }

  /** Ranges of a tiling are ordered and do not overlap. */
  lemma {:induction false} TilingDisjoint(t: seq<Range>, lo: int, hi: int, i: int, j: int)
    requires Tiles(t, lo, hi) && 0 <= i < j < |t|
    ensures t[i].end < t[j].start
    decreases j - i
  {
    if j > i + 1 {
      TilingDisjoint(t, lo, hi, i, j - 1);
    }
  }

  /** The chapter table tiles the slides 1..TotalSlides. */
  lemma ChaptersTileSlides()
    ensures Tiles(Chapters, 1, TotalSlides)
  {
  }

  /** Every slide lies in exactly one chapter, and `ChapterOf` finds it. */
  lemma SlideInOneChapter(s: int)
    requires 1 <= s <= TotalSlides
    ensures InChapter(s, ChapterOf(s))
    ensures forall c :: InChapter(s, c) ==> c == ChapterOf(s)
  {
    ChaptersTileSlides();
    TilingCovers(Chapters, 1, TotalSlides, s);
    var i :| 0 <= i < |Chapters| && Chapters[i].start <= s <= Chapters[i].end;
    assert InChapter(s, i + 1);
    forall c | InChapter(s, c)
      ensures c == ChapterOf(s)
    {
      var d := ChapterOf(s);
      if c < d {
        TilingDisjoint(Chapters, 1, TotalSlides, c - 1, d - 1);
      } else if d < c {
        TilingDisjoint(Chapters, 1, TotalSlides, d - 1, c - 1);
      }
    }
  }

  /** The start slide of chapter `c` belongs to chapter `c`. */
  lemma ChapterOfStart(c: int)
    requires IsChapter(c)
    ensures 1 <= Chapters[c - 1].start <= TotalSlides
    ensures ChapterOf(Chapters[c - 1].start) == c
  {
    ChaptersTileSlides();
    var s := Chapters[c - 1].start;
    assert 1 <= s <= TotalSlides by {
      if c > 1 { TilingDisjoint(Chapters, 1, TotalSlides, 0, c - 1); }
      if c < |Chapters| { TilingDisjoint(Chapters, 1, TotalSlides, c - 1, |Chapters| - 1); }
    }
    assert InChapter(s, c);
    SlideInOneChapter(s);
  }

  // ---------------------------------------------------------------------------
  // Commands and where they lead
  // ---------------------------------------------------------------------------

  /** The operations the input handlers invoke. */
  datatype Command =
    | NextSlide
    | PrevSlide
    | NextChapter
    | PrevChapter
    | ToggleSidebar
    | GoToSlide(n: int)
    | GoToChapter(c: int)

  /** Where `goToSlide(n)` leaves the position: out-of-range requests are ignored. */
  function GoToTarget(cur: int, n: int): int {
    if 1 <= n <= TotalSlides then n else cur
  }

  /** Where `goToChapter(c)` leaves the position: an unknown chapter is ignored. */
  function ChapterTarget(cur: int, c: int): int {
    if IsChapter(c) then GoToTarget(cur, Chapters[c - 1].start) else cur
  }

  /**
   * The position after running `cmd` at position `cur`. Every command keeps the position
   * within 1..TotalSlides.
   */
  function Target(cur: int, cmd: Command): (r: int)
    requires 1 <= cur <= TotalSlides
    ensures 1 <= r <= TotalSlides
  {
    match cmd
    case NextSlide => if cur < TotalSlides then GoToTarget(cur, cur + 1) else cur
    case PrevSlide => if cur > 1 then GoToTarget(cur, cur - 1) else cur
    case GoToSlide(n) => GoToTarget(cur, n)
    case GoToChapter(c) => ChapterTarget(cur, c)
    case NextChapter =>
      var cc := ChapterOf(cur);
      if cc < LastChapter then ChapterTarget(cur, cc + 1) else cur
    case PrevChapter =>
      var cc := ChapterOf(cur);
      if cc > 1 then ChapterTarget(cur, cc - 1) else GoToTarget(cur, 1)
    case ToggleSidebar => cur
  }

  /**
   * `nextChapter` moves forward to the first slide of the following chapter, and in the
   * last chapter it does nothing.
   */
  lemma NextChapterMoves(cur: int)
    requires 1 <= cur <= TotalSlides
    ensures var r := Target(cur, NextChapter);
      if ChapterOf(cur) == LastChapter then r == cur
      else cur < r && r == Chapters[ChapterOf(cur)].start && ChapterOf(r) == ChapterOf(cur) + 1
  {
    var cc := ChapterOf(cur);
    SlideInOneChapter(cur);
    if cc < LastChapter {
      ChapterOfStart(cc + 1);
      ChaptersTileSlides();
      TilingDisjoint(Chapters, 1, TotalSlides, cc - 1, cc);
    }
  }

  /**
   * `prevChapter` moves back to the first slide of the preceding chapter; in the first
   * chapter it goes to slide 1, even when already there.
   */
  lemma PrevChapterMoves(cur: int)
    requires 1 <= cur <= TotalSlides
    ensures var r := Target(cur, PrevChapter);
      if ChapterOf(cur) == 1 then r == 1
      else r < cur && r == Chapters[ChapterOf(cur) - 2].start && ChapterOf(r) == ChapterOf(cur) - 1
  {
    var cc := ChapterOf(cur);
    SlideInOneChapter(cur);
    if cc > 1 {
      ChapterOfStart(cc - 1);
      ChaptersTileSlides();
      TilingDisjoint(Chapters, 1, TotalSlides, cc - 2, cc - 1);
    }
  }

  /** `goToChapter(c)` for a known chapter lands in that chapter, on its first slide. */
  lemma GoToChapterLands(cur: int, c: int)
    requires 1 <= cur <= TotalSlides
    ensures IsChapter(c) ==>
      Target(cur, GoToChapter(c)) == Chapters[c - 1].start && ChapterOf(Target(cur, GoToChapter(c))) == c
    ensures !IsChapter(c) ==> Target(cur, GoToChapter(c)) == cur
  {
    if IsChapter(c) {
      ChapterOfStart(c);
    }
  }

  // ---------------------------------------------------------------------------
  // Input dispatch
  // ---------------------------------------------------------------------------

  /** The parts of a `keydown` event the handler looks at. */
  datatype KeyEvent = KeyEvent(key: string, targetTag: string, ctrlKey: bool, metaKey: bool)

  /** The `switch` on the key name in `handleKeydown`. */
  function NamedKeyCommand(key: string): Option<Command> {
    if key == "ArrowRight" || key == "ArrowDown" || key == " " then Some(NextSlide)
    else if key == "ArrowLeft" || key == "ArrowUp" then Some(PrevSlide)
    else if key == "PageDown" then Some(NextChapter)
    else if key == "PageUp" then Some(PrevChapter)
    else if key == "s" || key == "S" then Some(ToggleSidebar)
    else if key == "Home" then Some(GoToSlide(1))
    else if key == "End" then Some(GoToSlide(TotalSlides))
    else None
  }

  /** The number-key check after the `switch`: `parseInt(key)` in 1..8 with no ctrl or meta. */
  function DigitKeyCommand(e: KeyEvent): Option<Command> {
    match ParseInt(e.key)
    case Int(num) =>
      if num >= 1 && num <= 8 && !e.ctrlKey && !e.metaKey then Some(GoToChapter(num)) else None
    case NaN => None
  }

  function OptionToSeq(o: Option<Command>): seq<Command> {
    if o.Some? then [o.value] else []
  }

  /** The commands `handleKeydown` runs for `e`, in order. */
  function KeyCommands(e: KeyEvent): seq<Command> {
    if e.targetTag == "INPUT" || e.targetTag == "TEXTAREA" then []
    else OptionToSeq(NamedKeyCommand(e.key)) + OptionToSeq(DigitKeyCommand(e))
  }

  /** No named key is also a number key, so a key press runs at most one command. */
  lemma KeyCommandsAtMostOne(e: KeyEvent)
    ensures |KeyCommands(e)| <= 1
    ensures NamedKeyCommand(e.key).Some? && !(e.targetTag == "INPUT" || e.targetTag == "TEXTAREA")
      ==> KeyCommands(e) == [NamedKeyCommand(e.key).value]
  {
    var k := e.key;
    if NamedKeyCommand(k).Some? {
      if k == " " {
        ParseIntBlank(k);
      } else {
        assert k[0] in "APsSHE";
        ParseIntNoDigits(k);
      }
    }
  }

  /** Digits 1 to 8 pick a chapter unless ctrl or meta is held, or the focus is a text field. */
  lemma DigitKeysPickChapters(d: int, targetTag: string, ctrl: bool, meta: bool)
    requires 1 <= d <= 8
    ensures var cmds := KeyCommands(KeyEvent(IntToString(d), targetTag, ctrl, meta));
      cmds == if targetTag == "INPUT" || targetTag == "TEXTAREA" || ctrl || meta then []
              else [GoToChapter(d)]
  {
    ParseIntRoundTrip(d);
    var k := IntToString(d);
    assert |k| == 1 && IsDecimalDigit(k[0]);
    assert NamedKeyCommand(k) == None;
  }

  /** Key presses while an input or a text area has focus do nothing. */
  lemma TextFieldsIgnored(e: KeyEvent)
    requires e.targetTag == "INPUT" || e.targetTag == "TEXTAREA"
    ensures KeyCommands(e) == []
  {
  }

  /** `handleSlideClick`: a click on the slide advances unless it hit a link or a button. */
  function SlideClickCommands(targetTag: string, insideLinkOrButton: bool): seq<Command> {
    if targetTag == "A" || targetTag == "BUTTON" || insideLinkOrButton then [] else [NextSlide]
  }

  /**
   * `handleChapterClick`: the chapter number read from the clicked item's `data-chapter`;
   * a value `parseInt` cannot read finds no chapter, so nothing is run.
   */
  function ChapterClickCommands(dataChapter: Option<string>): seq<Command> {
    if dataChapter.Some? && dataChapter.value != "" then
      match ParseInt(dataChapter.value)
      case Int(c) => [GoToChapter(c)]
      case NaN => []
    else []
  }

  /** Clicking the item of chapter `c` asks for chapter `c`. */
  lemma ChapterClickPicksChapter(c: int)
    ensures ChapterClickCommands(Some(IntToString(c))) == [GoToChapter(c)]
  {
    ParseIntRoundTrip(c);
  }

  /**
   * The slide a deep link `#n` selects at start-up: `parseInt` of the fragment after its
   * first character, kept only when it is a slide number.
   */
  function DeepLinkSlide(hash: string): (r: Option<int>)
    ensures r.Some? ==> 1 <= r.value <= TotalSlides
  {
    if hash == "" then None
    else match ParseInt(hash[1..])
      case Int(n) => if n >= 1 && n <= TotalSlides then Some(n) else None
      case NaN => None
  }

  /** `#n` opens slide n for every slide number and falls back to the first slide otherwise. */
  lemma DeepLinkRoundTrip(n: int)
    ensures DeepLinkSlide("#" + IntToString(n)) == if 1 <= n <= TotalSlides then Some(n) else None
  {
    var h := "#" + IntToString(n);
    assert h[1..] == IntToString(n);
    ParseIntRoundTrip(n);
  }

  // ---------------------------------------------------------------------------
  // The deck
  // ---------------------------------------------------------------------------

  /** The transition classes a slide element carries. */
  datatype Tag = Untagged | Active | Prev

  class Deck {
    var currentSlide: int
    var sidebarVisible: bool
    /** The `.slide` elements in document order; slide `i + 1` is `slides[i]`. */
    const slides: array<Tag>

    /** Exactly slide `n` is active, the slides before it are prev, the rest carry neither. */
    ghost predicate TaggedFor(n: int)
      reads slides
    {
      forall i :: 0 <= i < slides.Length ==>
        (slides[i] == Active <==> i + 1 == n) && (slides[i] == Prev <==> i + 1 < n)
    }

    ghost predicate Valid()
      reads this, slides
    {
      1 <= currentSlide <= TotalSlides && TaggedFor(currentSlide)
    }

    /**
     * Loading the page: the initial state, then `init`, which shows slide 1 and then the
     * slide named by the address fragment `hash` when that is a slide number.
     */
    constructor (slideCount: nat, hash: string)
      ensures Valid() && fresh(slides) && slides.Length == slideCount
      ensures sidebarVisible
      ensures currentSlide == if DeepLinkSlide(hash).Some? then DeepLinkSlide(hash).value else 1
    {
      currentSlide := 1;
      sidebarVisible := true;
      slides := new Tag[slideCount];
      new;
      GoToSlide(1);
      if hash != "" {
        match ParseInt(hash[1..]) {
          case Int(n) =>
            if n >= 1 && n <= TotalSlides {
              GoToSlide(n);
            }
          case NaN =>
        }
      }
    }

    /** `goToSlide(n)`: retag every slide and move to `n`; out of range, nothing changes. */
    method GoToSlide(n: int)
      modifies this, slides
      ensures sidebarVisible == old(sidebarVisible)
      ensures if 1 <= n <= TotalSlides then currentSlide == n && TaggedFor(n)
              else currentSlide == old(currentSlide) && slides[..] == old(slides[..])
      ensures old(Valid()) ==> Valid() && currentSlide == GoToTarget(old(currentSlide), n)
    {
      if n < 1 || n > TotalSlides {
        return;
      }
      for i := 0 to slides.Length
        modifies slides
        invariant forall j :: 0 <= j < i ==>
          (slides[j] == Active <==> j + 1 == n) && (slides[j] == Prev <==> j + 1 < n)
      {
        var slideNum := i + 1;
        if slideNum == n {
          slides[i] := Active;
        } else if slideNum < n {
          slides[i] := Prev;
        } else {
          slides[i] := Untagged;
        }
      }
      currentSlide := n;
    }

    method NextSlide()
      requires Valid()
      modifies this, slides
      ensures Valid() && sidebarVisible == old(sidebarVisible)
      ensures currentSlide == Target(old(currentSlide), Command.NextSlide)
    {
      if currentSlide < TotalSlides {
        GoToSlide(currentSlide + 1);
      }
    }

    method PrevSlide()
      requires Valid()
      modifies this, slides
      ensures Valid() && sidebarVisible == old(sidebarVisible)
      ensures currentSlide == Target(old(currentSlide), Command.PrevSlide)
    {
      if currentSlide > 1 {
        GoToSlide(currentSlide - 1);
      }
    }

    method GoToChapter(c: int)
      requires Valid()
      modifies this, slides
      ensures Valid() && sidebarVisible == old(sidebarVisible)
      ensures currentSlide == Target(old(currentSlide), Command.GoToChapter(c))
    {
      if IsChapter(c) {
        GoToSlide(Chapters[c - 1].start);
      }
    }

    method NextChapter()
      requires Valid()
      modifies this, slides
      ensures Valid() && sidebarVisible == old(sidebarVisible)
      ensures currentSlide == Target(old(currentSlide), Command.NextChapter)
    {
      var cc := ChapterOf(currentSlide);
      if cc < 8 {
        GoToChapter(cc + 1);
      }
    }

    method PrevChapter()
      requires Valid()
      modifies this, slides
      ensures Valid() && sidebarVisible == old(sidebarVisible)
      ensures currentSlide == Target(old(currentSlide), Command.PrevChapter)
    {
      var cc := ChapterOf(currentSlide);
      if cc > 1 {
        GoToChapter(cc - 1);
      } else {
        GoToSlide(1);
      }
    }

    /** Flip the sidebar; the position and the slide tags stay as they are. */
    method ToggleSidebar()
      modifies this
      ensures sidebarVisible == !old(sidebarVisible)
      ensures currentSlide == old(currentSlide)
    {
      sidebarVisible := !sidebarVisible;
    }

    /** Run one command. */
    method Perform(cmd: Command)
      requires Valid()
      modifies this, slides
      ensures Valid()
      ensures currentSlide == Target(old(currentSlide), cmd)
      ensures sidebarVisible == if cmd == Command.ToggleSidebar then !old(sidebarVisible) else old(sidebarVisible)
    {
      match cmd
      case NextSlide => NextSlide();
      case PrevSlide => PrevSlide();
      case NextChapter => NextChapter();
      case PrevChapter => PrevChapter();
      case ToggleSidebar => ToggleSidebar();
      case GoToSlide(n) => GoToSlide(n);
      case GoToChapter(c) => GoToChapter(c);
    }

    /** `handleKeydown(e)`. */
    method HandleKeydown(e: KeyEvent)
      requires Valid()
      modifies this, slides
      ensures Valid()
      ensures KeyCommands(e) == [] ==> currentSlide == old(currentSlide) && sidebarVisible == old(sidebarVisible)
      ensures KeyCommands(e) != [] ==> currentSlide == Target(old(currentSlide), KeyCommands(e)[0])
      ensures KeyCommands(e) != [] ==>
        sidebarVisible == if KeyCommands(e)[0] == Command.ToggleSidebar then !old(sidebarVisible) else old(sidebarVisible)
    {
      var cmds := KeyCommands(e);
      KeyCommandsAtMostOne(e);
      if cmds != [] {
        Perform(cmds[0]);
      }
    }

    /**
     * `handleSlideClick`: a click on a link or a button, or inside one, leaves the deck as it
     * is; any other click on the slide moves to the next slide.
     */
    method HandleSlideClick(targetTag: string, insideLinkOrButton: bool)
      requires Valid()
      modifies this, slides
      ensures Valid() && sidebarVisible == old(sidebarVisible)
      ensures targetTag == "A" || targetTag == "BUTTON" || insideLinkOrButton ==>
        currentSlide == old(currentSlide) && slides[..] == old(slides[..])
      ensures !(targetTag == "A" || targetTag == "BUTTON" || insideLinkOrButton) ==>
        currentSlide == Target(old(currentSlide), Command.NextSlide)
    {
      var cmds := SlideClickCommands(targetTag, insideLinkOrButton);
      if cmds != [] {
        Perform(cmds[0]);
      }
    }

    /**
     * `handleChapterClick`: a chapter item whose `data-chapter` reads as `c` goes to chapter
     * `c`; an item without a readable number leaves the deck as it is.
     */
    method HandleChapterClick(dataChapter: Option<string>)
      requires Valid()
      modifies this, slides
      ensures Valid() && sidebarVisible == old(sidebarVisible)
      ensures ChapterClickCommands(dataChapter) == [] ==>
        currentSlide == old(currentSlide) && slides[..] == old(slides[..])
      ensures ChapterClickCommands(dataChapter) != [] ==>
        currentSlide == Target(old(currentSlide), ChapterClickCommands(dataChapter)[0])
    {
      var cmds := ChapterClickCommands(dataChapter);
      if cmds != [] {
        Perform(cmds[0]);
      }
    }
  }

  /** The scenario of a 24-slide deck driven through its chapters. */
  method ChapterWalk() {
    var deck := new Deck(24, "");
    assert deck.currentSlide == 1;
    deck.GoToChapter(8);
    assert deck.currentSlide == 23;
    NextChapterMoves(23);
    deck.NextChapter();
    assert deck.currentSlide == 23;
    deck.NextSlide();
    assert deck.currentSlide == 24;
    deck.NextSlide();
    assert deck.currentSlide == 24;
    deck.ToggleSidebar();
    deck.ToggleSidebar();
    assert deck.sidebarVisible && deck.currentSlide == 24;
  }

  /** A deep link past the last slide leaves the deck on slide 1; one in range opens it. */
  method DeepLinks() {
    DeepLinkRoundTrip(30);
    var past := new Deck(24, "#" + IntToString(30));
    assert past.currentSlide == 1;
    DeepLinkRoundTrip(7);
    var linked := new Deck(24, "#" + IntToString(7));
    assert linked.currentSlide == 7;
  }
}
