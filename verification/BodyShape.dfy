/** What every coding of the body shares: its joint slots and the sizes of their rows. */
module BodyShape {
  const SLOTS: nat := 31
  const ABSENT_SLOT: nat := 14

  const JOINT_STATE_SIZE: nat := 40
  const JOINT_COMMAND_SIZE: nat := 20
}
