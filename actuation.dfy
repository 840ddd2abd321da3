/** What the drivetrain hands to its three wheel actuation groups in one call. */
module Actuation {

  datatype Option<T> = None | Some(value: T)

  /** The normalised speeds sent to the left, right and centre (strafe) groups.
      `center` is None when the call does not command the centre group, which then keeps
      its previous speed. Speeds are not clamped to [-1, 1]. */
  datatype Command = Command(left: real, right: real, center: Option<real>)

  /** zeroMovement: every group is told to stop. */
  const Stop: Command := Command(0.0, 0.0, Some(0.0))
}
