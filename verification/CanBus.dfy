/** Vocabulary shared by the seat controller and the ECU simulator: the decoded
    SECU1_STAT and SECU1_CMD_1 signals of motor 1. */
module CanBus {
  import opened Options

  type uint8 = x: int | 0 <= x < 256

  type Percent = x: int | 0 <= x <= 100

  /** MotorDirection: values 0..3 of both the command and the movement-state signal. */
  datatype Direction = OFF | DEC | INC | INV

  /** Position byte meaning "motor position not learned". */
  const MOTOR_POS_INVALID: uint8 := 255

  const STAT_FRAME_ID := 0x712

  /** A decoded SECU1_STAT record. All three signals fill their bit fields, so the
      generated range checks accept every value that these types can hold. */
  datatype Status = Status(pos: uint8, mov: Direction, learning: uint8)

  /** A frame as read from the socket: `payload` is what unpacking its data yields. */
  datatype Frame = Frame(id: int, payload: Option<Status>)

  /** A SECU1_CMD_1 frame for motor 1. */
  datatype Command = Command(dir: Direction, rpm: uint8)
}
