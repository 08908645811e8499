/** Machine words, task tokens and the sentinel values that share their range. */
module Tokens {

  datatype Option<+T> = None | Some(value: T)

  const U32_SIZE: nat := 0x1_0000_0000
  const U32_MAX: nat := 0xFFFF_FFFF

  /** A task token is a `u32`; the waker carries nothing else. */
  type Token = nat

  /** The token with which a blocked thread, not a task, queues for a lock. */
  const THREAD_TOKEN: Token := U32_MAX

  /** The two words of a notification that are not tokens. */
  const NOTIFICATION_READY: nat := U32_MAX - 1
  const NOTIFICATION_UNINIT: nat := U32_MAX

  /** What a channel or a future delivers. No code looks inside it. */
  type Value = int
}
