/** kmod/framework_backlight.c: reading and writing the panel level. The two driver calls are
    foreign; whether each of them succeeds is a parameter. */
module Backlight {
  import opened MachineIntegers

  const ENXIO: int := 6

  class Panel {
    var attached: bool     // a backlight device node was found
    var level: uint32      // what the driver shows
    var props: uint32      // property buffer exchanged with the driver
    var cached: uint32     // the level the device node believes in

    constructor (attached: bool, level: uint32, cached: uint32)
      ensures this.attached == attached && this.level == level && this.props == 0 && this.cached == cached
    {
      this.attached, this.level, this.props, this.cached := attached, level, 0, cached;
    }

    /** What a read reports: the level, or 0 when there is no device or the driver call fails. */
    function Seen(statusOk: bool): uint32
      reads this`attached, this`level
    {
      if attached && statusOk then level else 0
    }

    method GetBrightness(statusOk: bool) returns (brightness: uint32)
      modifies this`props
      ensures brightness == Seen(statusOk)
      ensures props == if attached && statusOk then level else old(props)
    {
      if !attached {
        return 0;
      }
      if statusOk {
        props := level;
        return props;
      }
      return 0;
    }

    /** Success leaves the requested level on the panel, except in exactly one case: the read
        fails, 0 is requested, and the failed read's 0 is mistaken for the panel's level. */
    method SetBrightness(brightness: uint32, statusOk: bool, updateError: int) returns (error: int)
      modifies this`level, this`props, this`cached
      ensures level == if attached && brightness != old(Seen(statusOk)) && updateError == 0 then brightness else old(level)
      ensures error == 0 && level != brightness <==>
              attached && !statusOk && brightness == 0 && old(level) != 0
      ensures error != 0 ==> level == old(level) && cached == old(cached)
      ensures error == 0 ==> cached == (if old(Seen(statusOk)) == brightness then old(cached) else brightness)
      ensures !attached ==> error == ENXIO && props == old(props)
      ensures error == if !attached then ENXIO else if brightness == old(Seen(statusOk)) then 0 else updateError
    {
      if !attached {
        return ENXIO;
      }
      var current := GetBrightness(statusOk);
      if brightness == current {
        return 0;
      }
      props := brightness;
      error := updateError;
      if updateError == 0 {
        level := props;
      }
      if error == 0 {
        cached := brightness;
      }
    }
  }
}
