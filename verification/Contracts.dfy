/** The limits that both ends of the capture bridge agree on. */
module Contracts {
  const MAX_CAPTURE_BATCH_BYTES: nat := 2 * 1024 * 1024
  const MAX_CAPTURE_EVENT_BYTES: nat := 64 * 1024
  const MAX_CAPTURE_BATCH_CHUNKS: nat := 1_000
  const MAX_CAPTURE_EVENTS_PER_CHUNK: nat := 999
  const MAX_CAPTURE_SESSION_ID_BYTES: nat := 256 * 1024
}
