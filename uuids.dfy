/** The uuid rule shared by the BeforeCreate hooks of tasks, applications and reviews. */
module Uuids {

  /**
   * The uuid a record is stored with: the one it already carries, or the
   * freshly generated one when it carries none.
   */
  function FillUuid(current: string, generated: string): (r: string)
    ensures current != "" ==> r == current
    ensures current == "" ==> r == generated
    ensures generated != "" ==> r != ""
  {
    if current == "" then generated else current
  }
}
