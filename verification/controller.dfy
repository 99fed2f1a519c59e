/**
 The proximity behaviour of the avatar (`AvatarController`): once per frame
 it reads two boolean Animator parameters, `isWalking` and `isReachingOut`,
 decides whether the avatar is close to the camera, and sets the
 parameters. The distance test itself is an input here: `close` is whether
 the avatar's depth is below the threshold this frame.
 */
module AvatarController {

  /** The two Animator parameters the controller drives. */
  datatype Flags = Flags(isWalking: bool, isReachingOut: bool)

  /**
   `Update`: a far avatar that stands starts walking, a close one that walks
   stops, and a close one that was standing at the start of the frame starts
   reaching out. All three tests read the flags as they were at the start of
   the frame. Nothing ever clears `isReachingOut`.
   */
  function Update(flags: Flags, close: bool): (r: Flags)
    ensures r.isWalking == !close
    ensures r.isReachingOut <==> flags.isReachingOut || (!flags.isWalking && close)
    ensures flags.isReachingOut ==> r.isReachingOut
    ensures flags.isWalking && close ==> r.isReachingOut == flags.isReachingOut
    ensures !close ==> r.isReachingOut == flags.isReachingOut
  {
    var walking := flags.isWalking;
    var reaching := flags.isReachingOut;
    var afterStart := if !walking && !close then true else walking;
    var afterStop := if walking && close then false else afterStart;
    var afterReach := if !reaching && !walking && close then true else reaching;
    Flags(afterStop, afterReach)
  }

  /** Standing and reaching out while close, or walking while far, is where the controller stays. */
  lemma Fixpoints(reaching: bool)
    ensures Update(Flags(false, true), true) == Flags(false, true)
    ensures Update(Flags(true, reaching), false) == Flags(true, reaching)
  {
  }

  /**
   A walking avatar that comes close first stops, and reaches out only on
   the following frame: never in the frame in which it stops.
   */
  lemma ReachAfterTwoFrames()
    ensures Update(Flags(true, false), true) == Flags(false, false)
    ensures Update(Update(Flags(true, false), true), true) == Flags(false, true)
  {
  }

  /** The flags after a run of frames, `closes[k]` telling whether the avatar is close in frame k. */
  function Run(flags: Flags, closes: seq<bool>): Flags
    decreases |closes|
  {
    if |closes| == 0 then flags
    else Update(Run(flags, closes[..|closes| - 1]), closes[|closes| - 1])
  }

  /** Reaching out is never cleared by a longer run: the flag is monotone along the frames. */
  lemma {:induction false} ReachingPersists(flags: Flags, closes: seq<bool>, later: seq<bool>)
    requires Run(flags, closes).isReachingOut
    ensures Run(flags, closes + later).isReachingOut
    decreases |later|
  {
    if |later| > 0 {
      var shorter := later[..|later| - 1];
      ReachingPersists(flags, closes, shorter);
      assert (closes + later)[..|closes + later| - 1] == closes + shorter;
    } else {
      assert closes + later == closes;
    }
  }

  /**
   `isReachingOut` holds after a run exactly when it held before, or the
   first frame was close with the avatar standing, or some two consecutive
   frames were both close.
   */
  lemma {:induction false} ReachingExactly(flags: Flags, closes: seq<bool>)
    ensures Run(flags, closes).isReachingOut <==>
      || flags.isReachingOut
      || (|closes| > 0 && closes[0] && !flags.isWalking)
      || (exists k :: 1 <= k < |closes| && closes[k - 1] && closes[k])
    decreases |closes|
  {
    if |closes| > 0 {
      var n := |closes|;
      var prefix := closes[..n - 1];
      ReachingExactly(flags, prefix);
      var before := Run(flags, prefix);
      if n > 1 {
        assert before.isWalking == !prefix[n - 2];
        assert prefix[0] == closes[0];
        if exists k :: 1 <= k < |prefix| && prefix[k - 1] && prefix[k] {
          var k :| 1 <= k < |prefix| && prefix[k - 1] && prefix[k];
          assert closes[k - 1] && closes[k];
        }
        if exists k :: 1 <= k < n && closes[k - 1] && closes[k] {
          var k :| 1 <= k < n && closes[k - 1] && closes[k];
          if k < n - 1 {
            assert prefix[k - 1] && prefix[k];
          }
        }
      }
    }
  }

  /** After at least one frame, the avatar walks exactly when the last frame was far. */
  lemma WalkingFollowsLastFrame(flags: Flags, closes: seq<bool>)
    requires |closes| > 0
    ensures Run(flags, closes).isWalking == !closes[|closes| - 1]
  {
  }
}
