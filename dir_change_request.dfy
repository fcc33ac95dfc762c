/**
 * A requested change of movement direction that stays pending for a short
 * window (src/DirChangeRequest.cpp, include/DirChangeRequest.h). Times are
 * seconds.
 */
module DirChangeRequests {
  import opened MoveDirs

  const DirChangeThreshSecs: real := 0.2

  class DirChangeRequest {
    var dirChangeTime: real
    var requestedMoveDir: MoveDir

    /** A fresh request starts its window now and is pending. */
    constructor (moveDir: MoveDir)
      ensures dirChangeTime == 0.0 && requestedMoveDir == moveDir
      ensures IsPending()
    {
      dirChangeTime := 0.0;
      requestedMoveDir := moveDir;
    }

    /** The request is pending for strictly less than 0.2 seconds after it was made or reset. */
    function IsPending(): (b: bool)
      reads this
      ensures b <==> dirChangeTime < 0.2
      ensures dirChangeTime <= 0.0 ==> b
    {
      dirChangeTime < DirChangeThreshSecs
    }

    /** The direction given at construction or at the last Reset. */
    function GetRequestedMoveDir(): (d: MoveDir)
      reads this
      ensures d == requestedMoveDir
    {
      requestedMoveDir
    }

    /**
     * Ages the request by deltaTime; the direction stays, and with a
     * non-negative delta an expired request stays expired.
     */
    method UpdateTime(deltaTime: real)
      modifies this`dirChangeTime
      ensures dirChangeTime == old(dirChangeTime) + deltaTime
      ensures deltaTime >= 0.0 && !old(IsPending()) ==> !IsPending()
      ensures deltaTime >= 0.0 && IsPending() ==> old(IsPending())
    {
      dirChangeTime := dirChangeTime + deltaTime;
    }

    /** Re-arms the request for a new direction. */
    method Reset(newDir: MoveDir)
      modifies this
      ensures requestedMoveDir == newDir && dirChangeTime == 0.0
      ensures IsPending()
    {
      requestedMoveDir := newDir;
      dirChangeTime := 0.0;
    }
  }
}
