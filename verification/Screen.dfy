/** kmod/framework_screen.c: per-power-mode brightness and timeout settings, and the
    relative change of the upper brightness level. */
module Screen {
  import opened MachineIntegers

  const MAX_BRIGHTNESS: uint32 := 100

  /** The increment both configurations are initialised with; nothing ever changes it. */
  const INCREMENT: uint8 := 10

  /** The value a relative change is meant to reach. */
  function Clamp(x: int): uint32 {
    if x < 0 then 0 else if x > MAX_BRIGHTNESS then MAX_BRIGHTNESS else x
  }

  /** When the machine arithmetic on `uint32_t` reaches the clamped value: lowering has to end at 100
      or below, since only raising is capped there, and raising must not wrap, or else wrap to a
      value that is capped to 100 all the same. */
  predicate Exact(brightness: uint32, relative: int) {
    if relative < 0 then
      brightness + relative <= MAX_BRIGHTNESS
    else
      brightness + relative < TWO_TO_THE_32 || Wrap32(brightness + relative) >= MAX_BRIGHTNESS
  }

  /** The level stored by one undisturbed relative change, by the branches of the code. */
  function Changed(brightness: uint32, relative: int): uint32 {
    if relative < 0 then
      if brightness == 0 || 0 - relative > brightness then 0 else Wrap32(brightness + relative)
    else if brightness == MAX_BRIGHTNESS || Wrap32(brightness + relative) > MAX_BRIGHTNESS then
      MAX_BRIGHTNESS
    else
      Wrap32(brightness + relative)
  }

  /** Whether the change is reported as fully applied (0) rather than refused or capped (-1). */
  predicate Applied(brightness: uint32, relative: int) {
    if relative < 0 then 0 < brightness && 0 <= brightness + relative
    else brightness != MAX_BRIGHTNESS && Wrap32(brightness + relative) <= MAX_BRIGHTNESS
  }

  /** `Exact` is the weakest condition under which a relative change is a clamped addition. The
      change is any `int` but the least one, whose negation C does not define. */
  lemma ChangedIsClampedIff(brightness: uint32, relative: int)
    requires -TWO_TO_THE_31 < relative < TWO_TO_THE_31
    ensures Changed(brightness, relative) == Clamp(brightness + relative) <==> Exact(brightness, relative)
  {
  }

  /** From any level in 0..100, any such change is exact and stays in 0..100. */
  lemma ChangedInRange(brightness: uint32, relative: int)
    requires brightness <= MAX_BRIGHTNESS && -TWO_TO_THE_31 < relative < TWO_TO_THE_31
    ensures Changed(brightness, relative) == Clamp(brightness + relative)
    ensures Changed(brightness, relative) <= MAX_BRIGHTNESS
  {
  }

  /** The clamped value is the one in 0..100 that is nearest. */
  lemma ClampIsNearest(x: int, y: int)
    requires 0 <= y <= 100
    ensures 0 <= Clamp(x) <= 100
    ensures (if x < Clamp(x) then Clamp(x) - x else x - Clamp(x)) <= (if x < y then y - x else x - y)
  {
  }

  /** From 0..100, a change that is reported as applied has been added in full; one that is not has
      stopped at an end of the range. */
  lemma AppliedIffInFull(brightness: uint32, relative: int)
    requires brightness <= 100 && -TWO_TO_THE_31 < relative < TWO_TO_THE_31 && relative != 0
    ensures Applied(brightness, relative) <==> Changed(brightness, relative) == brightness + relative
    ensures !Applied(brightness, relative) ==> Changed(brightness, relative) == if relative < 0 then 0 else 100
  {
  }

  class ScreenConfig {
    var low: uint32
    var high: uint32
    var timeout: uint32

    constructor (low: uint32, high: uint32, timeout: uint32)
      ensures this.low == low && this.high == high && this.timeout == timeout
    {
      this.low, this.high, this.timeout := low, high, timeout;
    }

    /** Reads the level in one locked section and writes it in another; run without interference. */
    method ChangeBrightness(relative: int) returns (result: int)
      requires -TWO_TO_THE_31 < relative < TWO_TO_THE_31
      modifies this`high
      ensures high == Changed(old(high), relative)
      ensures high == Clamp(old(high) + relative) <==> Exact(old(high), relative)
      ensures result == if Applied(old(high), relative) then 0 else -1
    {
      var brightness := high;
      if relative < 0 {
        if brightness == 0 {
          return -1;
        }
        if 0 - relative > brightness {
          high := 0;
          return -1;
        }
        high := Wrap32(high + relative);
        return 0;
      } else {
        if brightness == 100 {
          return -1;
        }
        if Wrap32(brightness + relative) > 100 {
          high := 100;
          return -1;
        }
        high := Wrap32(high + relative);
        return 0;
      }
    }

    /** The sysctl handler of `brightness_low`: values above 100 are ignored. */
    method SysctlLow(value: uint32)
      modifies this`low
      ensures low == if value <= MAX_BRIGHTNESS then value else old(low)
    {
      if value != low {
        if value > 100 {
          return;
        }
        low := value;
      }
    }

    /** The sysctl handler of `brightness_high`: values above 100 are ignored. */
    method SysctlHigh(value: uint32)
      modifies this`high
      ensures high == if value <= MAX_BRIGHTNESS then value else old(high)
    {
      if value != high {
        if value > 100 {
          return;
        }
        high := value;
      }
    }

    /** The sysctl handler of `timeout_secs`: any value is taken, zero included. */
    method SysctlTimeout(value: uint32)
      modifies this`timeout
      ensures timeout == value
    {
      if value != timeout {
        timeout := value;
      }
    }
  }
}
