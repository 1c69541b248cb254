/**
 * The render loop's frame pacing: after presenting a frame it measures the
 * time since the previous tick with the millisecond counter, which is an
 * unsigned 32-bit value, and sleeps for whatever is left of the frame period.
 */
module FramePacing {

  const FPS: int := 30

  /** The frame period in milliseconds, `1000 / FPS` in integer division. */
  const FRAME_MS: int := 1000 / FPS

  /** 2^32, the number of values of the millisecond counter. */
  const UINT32_MODULUS: int := 0x1_0000_0000

  type Uint32 = n: int | 0 <= n < UINT32_MODULUS

  /** `SDL_GetTicks() - lastTick`, computed in unsigned 32-bit arithmetic. */
  function FrameTime(now: Uint32, lastTick: Uint32): Uint32 {
    (now - lastTick) % UINT32_MODULUS
  }

  /** The argument passed to `SDL_Delay` (at most the 33 ms period), or 0 when the frame already used the whole period. */
  function FrameDelay(frameTime: Uint32): (delay: nat)
    ensures delay <= FRAME_MS && delay <= 33
  {
    if frameTime < FRAME_MS then FRAME_MS - frameTime else 0
  }

  /**
   * A frame plus its delay lasts at least one period, and exactly one period
   * when the frame was short; no delay is requested exactly when the frame
   * took the period or longer.
   */
  lemma FrameFillsPeriod(frameTime: Uint32)
    ensures frameTime + FrameDelay(frameTime) >= FRAME_MS
    ensures frameTime < FRAME_MS ==> frameTime + FrameDelay(frameTime) == FRAME_MS
    ensures FrameDelay(frameTime) == 0 <==> frameTime >= FRAME_MS
  {
  }

  /**
   * The unsigned subtraction measures the true elapsed time even when the
   * counter wraps past 2^32 between the two reads, as long as less than
   * 2^32 ms elapsed.
   */
  lemma FrameTimeAcrossWrap(lastTick: Uint32, elapsed: int)
    requires 0 <= elapsed < UINT32_MODULUS
    ensures FrameTime((lastTick + elapsed) % UINT32_MODULUS, lastTick) == elapsed
  {
    if lastTick + elapsed >= UINT32_MODULUS {
      assert (lastTick + elapsed) % UINT32_MODULUS == lastTick + elapsed - UINT32_MODULUS;
      assert (elapsed - UINT32_MODULUS) % UINT32_MODULUS == elapsed;
    }
  }

  /**
   * The delay requested after a frame, from the two tick readings: the rest
   * of the period after the time that truly elapsed, even across a wrap of
   * the counter, or nothing once a whole period has passed.
   */
  lemma DelayAfterElapsed(lastTick: Uint32, elapsed: int)
    requires 0 <= elapsed < UINT32_MODULUS
    ensures FrameDelay(FrameTime((lastTick + elapsed) % UINT32_MODULUS, lastTick)) ==
      if elapsed < FRAME_MS then FRAME_MS - elapsed else 0
  {
    FrameTimeAcrossWrap(lastTick, elapsed);
  }
}
