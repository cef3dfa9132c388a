/** The constants of include/tcp/server/connection.hpp, src/server/connection.cpp and apps/server.cpp. */
module Limits {
  const MAX_INPUT: nat := 65536
  const MAX_RESPONSE: nat := 65536
  const MAX_OUTPUT: nat := 131072
  const HIGH_WATER: nat := 65536
  const LOW_WATER: nat := 32768
  const COMMAND_BUDGET: nat := 32

  const WRITE_CALL_BUDGET: nat := 8
  const WRITE_CHUNK: nat := 4096

  const READ_CALL_BUDGET: nat := 16
  const READ_BUFFER: nat := 4096
  const ACCEPT_BUDGET: nat := 64
  const MAX_CLIENTS: nat := 128

  /** Milliseconds. */
  const IDLE_TIMEOUT: nat := 30000
  const TIMER_POLL: nat := 1000

  /** `std::size_t` on the 64-bit target. */
  const SIZE_MODULUS: nat := 0x1_0000_0000_0000_0000
}
