/**
 * The network operations of testing/utils.py as they are written, on the ids
 * of the cubes, where they differ from the id-based behaviour that
 * CubeNetwork models. Each function gives the outcome of one call: the id
 * returned, or the Python exception raised.
 */
module UtilsAsWritten {
  import opened Wrappers

  /** The exceptions the written code raises. */
  datatype PyError = AssertionError | TypeError | ValueError

  datatype PyOutcome = Returned(value: int) | Raised(error: PyError)

  /**
   * `join` as written. `None not in addresses` holds, and the range check that
   * follows compares None with integers before the None test is reached, which
   * raises TypeError; an explicit id takes the checks in order.
   */
  function JoinAsWritten(ids: seq<int>, cubeId: Option<int>): (r: PyOutcome)
    ensures cubeId.Some? ==>
      (r.Returned? <==> cubeId.value !in ids && 0x00 < cubeId.value < 0xFF)
  {
    match cubeId
    case None => Raised(TypeError)
    case Some(id) =>
      if id in ids then Raised(AssertionError)
      else if !(0x00 < id < 0xFF) then Raised(AssertionError)
      else Returned(id)
  }

  /** A join without an id never succeeds as written, not even on an empty network. */
  lemma JoinWithoutIdRaises(ids: seq<int>)
    ensures JoinAsWritten(ids, None) == Raised(TypeError)
  {
  }

  /**
   * `exit` as written. Without an id, random.choice picks a cube, and a cube is
   * never equal to an integer id, so the membership assertion fails; its message
   * formats the cube with `%d`, which raises TypeError. With an id not in use the
   * assertion fails. With an id in use, `list.remove` looks for the integer among
   * the cubes, finds none equal, and raises ValueError.
   */
  function ExitAsWritten(ids: seq<int>, cubeId: Option<int>): (r: PyOutcome)
    ensures |ids| == 0 ==> r == Raised(AssertionError)
    ensures |ids| > 0 && cubeId.None? ==> r == Raised(TypeError)
    ensures |ids| > 0 && cubeId.Some? && cubeId.value !in ids ==> r == Raised(AssertionError)
    ensures cubeId.Some? && cubeId.value in ids ==> r == Raised(ValueError)
  {
    if |ids| == 0 then Raised(AssertionError)
    else match cubeId
      case None => Raised(TypeError)
      case Some(id) => if id !in ids then Raised(AssertionError) else Raised(ValueError)
  }

  /** No call of `exit` returns as written. */
  lemma ExitNeverReturns(ids: seq<int>, cubeId: Option<int>)
    ensures ExitAsWritten(ids, cubeId).Raised?
  {
  }

  /**
   * `get_unique_cube_id` as written: the loop tests the draw against the list of
   * cubes, where no integer is found, so the first draw is returned whether it
   * is in use or not.
   */
  function GetUniqueCubeIdAsWritten(ids: seq<int>, size: int, draws: seq<int>): (r: PyOutcome)
    requires |ids| != size && |ids| < 0xFF ==> |draws| > 0
    ensures r.Returned? <==> |ids| != size && |ids| < 0xFF
    ensures r.Returned? ==> r.value == draws[0]
  {
    if |ids| == size || |ids| >= 0xFF then Raised(AssertionError)
    else Returned(draws[0])
  }

  /** On a network holding cube 0x07, a first draw of 0x07 is handed out again. */
  lemma AllocatorReturnsUsedId()
    ensures var r := GetUniqueCubeIdAsWritten([0x07], 2, [0x07, 0x08]);
      r.Returned? && r.value in [0x07]
  {
  }
}
