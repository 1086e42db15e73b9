/** kmod/framework_keyhandler.c: from a key code to a relative brightness change. */
module KeyHandler {
  import opened MachineIntegers
  import opened Screen

  const KEY_BRIGHTNESS_UP: uint16 := 225
  const KEY_BRIGHTNESS_DOWN: uint16 := 224

  datatype Entry = Entry(keycode: uint16, up: bool)

  const TABLE: seq<Entry> := [Entry(KEY_BRIGHTNESS_UP, true), Entry(KEY_BRIGHTNESS_DOWN, false)]

  /** The upper level after a key: one increment up or down, or untouched for any other key. */
  function AfterKey(high: uint32, key: Option<uint16>): uint32 {
    match key
    case None => high
    case Some(code) =>
      if code == KEY_BRIGHTNESS_UP then Changed(high, INCREMENT)
      else if code == KEY_BRIGHTNESS_DOWN then Changed(high, 0 - INCREMENT)
      else high
  }

  lemma AfterKeyInRange(high: uint32, key: Option<uint16>)
    requires high <= MAX_BRIGHTNESS
    ensures AfterKey(high, key) <= MAX_BRIGHTNESS
  {
  }

  /** Table scan: the first entry with the key's code changes the configuration. */
  method HandleKey(config: ScreenConfig, code: uint16) returns (result: int)
    modifies config`high
    ensures config.high == AfterKey(old(config.high), Some(code))
    ensures result == 0 <==> code == 225 || code == 224
    ensures code == 225 && old(config.high) <= 100 ==> config.high == Clamp(old(config.high) + 10)
    ensures code == 224 && old(config.high) <= 100 ==> config.high == Clamp(old(config.high) - 10)
    ensures code != 225 && code != 224 ==> config.high == old(config.high)
    ensures result == 0 || result == -1
  {
    var i := 0;
    while i < |TABLE|
      invariant 0 <= i <= |TABLE|
      invariant forall k :: 0 <= k < i ==> TABLE[k].keycode != code
      invariant config.high == old(config.high)
    {
      if TABLE[i].keycode == code {
        var increment: int := INCREMENT;
        var _ := config.ChangeBrightness(if TABLE[i].up then increment else 0 - increment);
        return 0;
      }
      i := i + 1;
    }
    assert TABLE[0].keycode != code && TABLE[1].keycode != code;
    return -1;
  }
}
