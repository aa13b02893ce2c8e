/** Fixed-width integers and the time stamp type shared by all State records. */
module Common {

  /** C++ `unsigned int` on the platforms gazebo targets. */
  newtype uint32 = x: int | 0 <= x < 0x1_0000_0000

  /** C++ `uint64_t`, the type of the simulation iteration counter. */
  newtype uint64 = x: int | 0 <= x < 0x1_0000_0000_0000_0000

  /** common::Time: seconds and nanoseconds. */
  datatype Time = Time(sec: int, nsec: int)

  const TimeZero := Time(0, 0)
}
