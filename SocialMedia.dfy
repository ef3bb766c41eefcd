/** The social-video feed: a vertical list of videos navigated one step at a
    time by the mouse wheel, swipes, the arrow keys and the navigation dots,
    with no wrap-around; a debounce flag that makes the wheel ignore input
    until a timer clears it; and a play/pause flag. Timers are events here,
    and the video elements appear only through the one fact the handlers
    read from them: whether the current video is paused. */
module SocialMediaComponent {

  import opened Options

  /** The number of videos in the feed. */
  const VideoCount := 2
  /** A touch counts as a swipe only if it lasts less than this (ms)... */
  const SwipeMaxDuration := 300
  /** ...and travels more than this vertically (px). */
  const SwipeMinDistance := 50

  /** One step of navigation: a positive `delta` asks for the next video, a
      negative one for the previous video; a request past either end of the
      list is ignored. */
  function Move(i: nat, n: nat, delta: int): (r: nat)
    requires i < n
    ensures r < n
    ensures r == i + 1 <==> delta > 0 && i + 1 < n
    ensures r + 1 == i <==> delta < 0 && i > 0
    ensures r == i || r == i + 1 || r + 1 == i
  {
    if delta > 0 && i < n - 1 then i + 1
    else if delta < 0 && i > 0 then i - 1
    else i
  }

  function Sign(x: int): int {
    if x > 0 then 1 else if x < 0 then -1 else 0
  }

  /** Navigation is a step of one in the requested direction, clamped to the
      ends of the list: there is no wrap-around. */
  lemma MoveIsClampedStep(i: nat, n: nat, delta: int)
    requires i < n
    ensures Move(i, n, delta) == if i + Sign(delta) < 0 then 0
                                 else if i + Sign(delta) > n - 1 then n - 1
                                 else i + Sign(delta)
  {
  }

  /** The magnitude of a distance. */
  function Abs(x: int): nat {
    if x < 0 then -x else x
  }

  /** Whether a touch that travelled `deltaY` pixels upwards in `deltaTime`
      milliseconds is a swipe. */
  predicate IsSwipe(deltaTime: int, deltaY: int)
    ensures IsSwipe(deltaTime, deltaY) <==> deltaTime < SwipeMaxDuration && Abs(deltaY) > SwipeMinDistance
  {
    deltaTime < SwipeMaxDuration && (deltaY > SwipeMinDistance || deltaY < -SwipeMinDistance)
  }

  /** What a pending touch-end listener remembers from its touch start: where
      and when the touch began, and the index shown at that moment. */
  datatype TouchStart = TouchStart(startY: int, startTime: int, seenIndex: nat)

  /** The index after one touch-end listener runs, with the bound checked
      against the index at that moment. */
  function SwipeStep(i: nat, n: nat, t: TouchStart, endY: int, endTime: int): (r: nat)
    requires i < n
    ensures r < n
    ensures !IsSwipe(endTime - t.startTime, t.startY - endY) ==> r == i
    ensures IsSwipe(endTime - t.startTime, t.startY - endY) ==> r == Move(i, n, t.startY - endY)
  {
    var deltaY := t.startY - endY;
    if IsSwipe(endTime - t.startTime, deltaY) then Move(i, n, deltaY) else i
  }

  /** The index after every pending touch-end listener has run, in the order
      they were registered. */
  function SwipeAll(i: nat, n: nat, pending: seq<TouchStart>, endY: int, endTime: int): (r: nat)
    requires i < n
    ensures r < n
    ensures r <= i + |pending| && i <= r + |pending|
    decreases |pending|
  {
    if pending == [] then i
    else SwipeAll(SwipeStep(i, n, pending[0], endY, endTime), n, pending[1..], endY, endTime)
  }

  /** The touch-end listener as the source writes it: the bound is checked
      against the index captured when the touch started, and the step is then
      applied to whatever the index has become. */
  function SwipeStepAsWritten(i: int, n: nat, t: TouchStart, endY: int, endTime: int): (r: int)
    ensures r == i || r == i + 1 || r == i - 1
    ensures r == i + 1 ==> IsSwipe(endTime - t.startTime, t.startY - endY) && t.startY > endY && t.seenIndex < n - 1
    ensures r == i - 1 ==> IsSwipe(endTime - t.startTime, t.startY - endY) && t.startY < endY && t.seenIndex > 0
    ensures IsSwipe(endTime - t.startTime, t.startY - endY) && t.startY > endY && t.seenIndex < n - 1 ==> r == i + 1
    ensures IsSwipe(endTime - t.startTime, t.startY - endY) && t.startY < endY && t.seenIndex > 0 ==> r == i - 1
  {
    var deltaY := t.startY - endY;
    if IsSwipe(endTime - t.startTime, deltaY) then
      if deltaY > 0 && t.seenIndex < n - 1 then i + 1
      else if deltaY < 0 && t.seenIndex > 0 then i - 1
      else i
    else i
  }

  function SwipeAllAsWritten(i: int, n: nat, pending: seq<TouchStart>, endY: int, endTime: int): (r: int)
    ensures i - |pending| <= r <= i + |pending|
    decreases |pending|
  {
    if pending == [] then i
    else SwipeAllAsWritten(SwipeStepAsWritten(i, n, pending[0], endY, endTime), n, pending[1..], endY, endTime)
  }

  /** Two fingers that land in turn register two touch-end listeners, both
      remembering index 0; the first finger to lift runs both, both pass the
      stale bound check, and the index leaves the list. */
  lemma StaleSwipeOvershoots()
    ensures var pending := [TouchStart(400, 0, 0), TouchStart(400, 10, 0)];
            SwipeAllAsWritten(0, VideoCount, pending, 300, 200) == 2
            && SwipeAll(0, VideoCount, pending, 300, 200) == 1
  {
    var pending := [TouchStart(400, 0, 0), TouchStart(400, 10, 0)];
    assert pending[1..][1..] == [];
  }

  /** With one pending touch that saw the current index, the listener as
      written and the corrected one agree. */
  lemma SingleSwipeAgrees(i: nat, n: nat, t: TouchStart, endY: int, endTime: int)
    requires i < n && t.seenIndex == i
    ensures SwipeAllAsWritten(i, n, [t], endY, endTime) == SwipeAll(i, n, [t], endY, endTime)
  {
    assert [t][1..] == [];
  }

  /** The keys the feed reacts to. */
  datatype Key = ArrowDown | ArrowUp | Space | OtherKey

  /** The scroll hint is shown exactly while there is a next video to go to. */
  function ShowsScrollIndicator(i: nat, n: nat): (b: bool)
    requires i < n
    ensures b <==> Move(i, n, 1) != i
  {
    i < n - 1
  }

  /** The feed's state. `pendingTouchEnds` are the touch-end listeners that
      touch starts have registered on the document and that have not run
      yet; each runs once, at the next touch end. */
  class SocialMedia {
    var currentVideoIndex: nat
    var isPlaying: bool
    var isUserInteracting: bool
    var pendingTouchEnds: seq<TouchStart>

    ghost predicate Valid()
      reads this
    {
      currentVideoIndex < VideoCount
    }

    constructor ()
      ensures Valid()
      ensures currentVideoIndex == 0 && isPlaying && !isUserInteracting && pendingTouchEnds == []
    {
      currentVideoIndex := 0;
      isPlaying := true;
      isUserInteracting := false;
      pendingTouchEnds := [];
    }

    /** A wheel event over the feed; `inView` says whether the feed is on
        screen. While the debounce flag is set the wheel changes nothing;
        otherwise it sets the flag, even if the index cannot move. */
    method HandleWheel(deltaY: int, inView: bool)
      requires Valid()
      modifies this
      ensures Valid()
      ensures isPlaying == old(isPlaying) && pendingTouchEnds == old(pendingTouchEnds)
      ensures !inView || old(isUserInteracting) ==>
                currentVideoIndex == old(currentVideoIndex) && isUserInteracting == old(isUserInteracting)
      ensures inView && !old(isUserInteracting) ==>
                isUserInteracting && currentVideoIndex == Move(old(currentVideoIndex), VideoCount, deltaY)
    {
      if !inView || isUserInteracting {
        return;
      }
      isUserInteracting := true;
      if deltaY > 0 && currentVideoIndex < VideoCount - 1 {
        currentVideoIndex := currentVideoIndex + 1;
      } else if deltaY < 0 && currentVideoIndex > 0 {
        currentVideoIndex := currentVideoIndex - 1;
      }
    }

    /** The 500 ms timer that ends the wheel's debounce fired. */
    method InteractionTimerFires()
      requires Valid()
      modifies this
      ensures Valid() && !isUserInteracting
      ensures currentVideoIndex == old(currentVideoIndex) && isPlaying == old(isPlaying)
      ensures pendingTouchEnds == old(pendingTouchEnds)
    {
      isUserInteracting := false;
    }

    /** A touch started at height `y` at time `time`: a touch-end listener is
        registered. */
    method HandleTouchStart(y: int, time: int)
      requires Valid()
      modifies this
      ensures Valid()
      ensures pendingTouchEnds == old(pendingTouchEnds) + [TouchStart(y, time, old(currentVideoIndex))]
      ensures currentVideoIndex == old(currentVideoIndex) && isPlaying == old(isPlaying)
      ensures isUserInteracting == old(isUserInteracting)
    {
      pendingTouchEnds := pendingTouchEnds + [TouchStart(y, time, currentVideoIndex)];
    }

    /** A touch ended at height `endY` at time `endTime`: every pending
        listener runs once, in registration order, and is removed. */
    method HandleTouchEnd(endY: int, endTime: int)
      requires Valid()
      modifies this
      ensures Valid() && pendingTouchEnds == []
      ensures currentVideoIndex == SwipeAll(old(currentVideoIndex), VideoCount, old(pendingTouchEnds), endY, endTime)
      ensures isPlaying == old(isPlaying) && isUserInteracting == old(isUserInteracting)
    {
      var k := 0;
      while k < |pendingTouchEnds|
        invariant 0 <= k <= |pendingTouchEnds|
        invariant currentVideoIndex < VideoCount
        invariant SwipeAll(old(currentVideoIndex), VideoCount, pendingTouchEnds, endY, endTime)
                  == SwipeAll(currentVideoIndex, VideoCount, pendingTouchEnds[k..], endY, endTime)
        invariant pendingTouchEnds == old(pendingTouchEnds)
        invariant isPlaying == old(isPlaying) && isUserInteracting == old(isUserInteracting)
      {
        var t := pendingTouchEnds[k];
        var deltaY := t.startY - endY;
        if endTime - t.startTime < SwipeMaxDuration && (deltaY > SwipeMinDistance || deltaY < -SwipeMinDistance) {
          if deltaY > 0 && currentVideoIndex < VideoCount - 1 {
            currentVideoIndex := currentVideoIndex + 1;
          } else if deltaY < 0 && currentVideoIndex > 0 {
            currentVideoIndex := currentVideoIndex - 1;
          }
        }
        assert pendingTouchEnds[k..][1..] == pendingTouchEnds[k + 1..];
        k := k + 1;
      }
      pendingTouchEnds := [];
    }

    /** Play or pause the current video; `video` is the current video
        element's `paused` flag, `None` when there is no element. */
    method TogglePlayPause(video: Option<bool>)
      requires Valid()
      modifies this
      ensures Valid()
      ensures currentVideoIndex == old(currentVideoIndex) && isUserInteracting == old(isUserInteracting)
      ensures pendingTouchEnds == old(pendingTouchEnds)
      ensures video == None ==> isPlaying == old(isPlaying)
      ensures video.Some? ==> isPlaying == video.value
      ensures video == Some(!old(isPlaying)) ==> isPlaying == !old(isPlaying)
    {
      if video.Some? {
        if video.value {
          isPlaying := true;
        } else {
          isPlaying := false;
        }
      }
    }

    /** A key press. The arrows move one step and never past either end;
        space plays or pauses the current video. */
    method HandleKeyDown(key: Key, video: Option<bool>)
      requires Valid()
      modifies this
      ensures Valid()
      ensures isUserInteracting == old(isUserInteracting) && pendingTouchEnds == old(pendingTouchEnds)
      ensures key == ArrowDown ==> currentVideoIndex == Move(old(currentVideoIndex), VideoCount, 1)
      ensures key == ArrowUp ==> currentVideoIndex == Move(old(currentVideoIndex), VideoCount, -1)
      ensures key != Space ==> isPlaying == old(isPlaying)
      ensures key == Space ==> currentVideoIndex == old(currentVideoIndex)
      ensures key == Space && video.Some? ==> isPlaying == video.value
      ensures key == Space && video == None ==> isPlaying == old(isPlaying)
      ensures key == OtherKey ==> currentVideoIndex == old(currentVideoIndex)
    {
      if key == ArrowDown && currentVideoIndex < VideoCount - 1 {
        currentVideoIndex := currentVideoIndex + 1;
      } else if key == ArrowUp && currentVideoIndex > 0 {
        currentVideoIndex := currentVideoIndex - 1;
      } else if key == Space {
        TogglePlayPause(video);
      }
    }

    /** A navigation dot was clicked; there is one dot per video. */
    method HandleDotClick(index: nat)
      requires Valid() && index < VideoCount
      modifies this
      ensures Valid() && currentVideoIndex == index
      ensures isPlaying == old(isPlaying) && isUserInteracting == old(isUserInteracting)
      ensures pendingTouchEnds == old(pendingTouchEnds)
    {
      currentVideoIndex := index;
    }

    /** The 100 ms auto-play timer, started when the index changes, fired and
        the current video was asked to play. */
    method AutoPlayStarted()
      requires Valid()
      modifies this
      ensures Valid() && isPlaying
      ensures currentVideoIndex == old(currentVideoIndex) && isUserInteracting == old(isUserInteracting)
      ensures pendingTouchEnds == old(pendingTouchEnds)
    {
      isPlaying := true;
    }

    /** The browser refused to play the video after the index changed or the
        video ended. */
    method PlayRejected()
      requires Valid()
      modifies this
      ensures Valid() && !isPlaying
      ensures currentVideoIndex == old(currentVideoIndex) && isUserInteracting == old(isUserInteracting)
      ensures pendingTouchEnds == old(pendingTouchEnds)
    {
      isPlaying := false;
    }
  }
}
