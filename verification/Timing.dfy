/** The time windows and limits of `charging/mod.rs`, `data/mod.rs` and `xy.rs`. Time is
    counted in microseconds, the grain of the firmware's uptime counter. */
module Timing {
  const SECOND: nat := 1_000_000

  const OV_DURATION: nat := 3 * SECOND
  const MAX_ABSORB: nat := 2 * 60 * 60 * SECOND
  const MAX_CHARGE: nat := 8 * 60 * 60 * SECOND
  const EXIT_DEBOUNCE: nat := 60 * SECOND
  const BATTERY_MISSING_TIMEOUT: nat := 10 * SECOND
  const OVERCURRENT_DURATION: nat := 5 * SECOND
  const FLAP_WINDOW: nat := 5 * 60 * SECOND
  const PACK_TEMP_STALE_TIMEOUT: nat := 10 * SECOND
  const MODBUS_UNHEALTHY_TIMEOUT: nat := 5 * SECOND
  const STALE_WINDOW: nat := 5 * SECOND

  const POLL_INTERVAL: nat := SECOND

  const MAX_HOLDS: nat := 4
  const U8_MAX: nat := 255
  const TRANSITION_BUFFER: nat := 8
}
