/** Classification of the raw input records read from the knob (main.c:276-294). */
module Events {

  /** Event types and codes from the Linux input event codes. */
  const EV_KEY: int := 0x01
  const EV_REL: int := 0x02
  const REL_DIAL: int := 0x07
  const BTN_0: int := 0x100

  /**
   * One `struct input_event`; the `struct timeval` time stamp is kept as
   * whole milliseconds (`tv_sec * 1000 + tv_usec / 1000`).
   */
  datatype InputEvent = InputEvent(evType: int, code: int, value: int, timeMs: int)

  /** What the control loop makes of one event. */
  datatype KnobInput =
    | Rotate(clockwise: bool)
    | PressEdge(atMs: int)
    | ReleaseEdge
    | Ignored

  predicate IsDial(ev: InputEvent)
  {
    ev.evType == EV_REL && ev.code == REL_DIAL
  }

  predicate IsButton(ev: InputEvent)
  {
    ev.evType == EV_KEY && ev.code == BTN_0
  }

  /**
   * A dial step of -1 or +1 is a rotation, a button value of 1 or 0 a press or
   * release edge; every other record, including other dial magnitudes and
   * other button values, is ignored.
   */
  function Classify(ev: InputEvent): (k: KnobInput)
    ensures k.Rotate? <==> IsDial(ev) && (ev.value == 1 || ev.value == -1)
    ensures k.Rotate? ==> (k.clockwise <==> ev.value == 1)
    ensures k.PressEdge? <==> IsButton(ev) && ev.value == 1
    ensures k.PressEdge? ==> k.atMs == ev.timeMs
    ensures k.ReleaseEdge? <==> IsButton(ev) && ev.value == 0
    ensures !IsDial(ev) && !IsButton(ev) ==> k == Ignored
  {
    if IsDial(ev) then
      if ev.value == -1 then Rotate(false)
      else if ev.value == 1 then Rotate(true)
      else Ignored
    else if IsButton(ev) then
      if ev.value == 1 then PressEdge(ev.timeMs)
      else if ev.value == 0 then ReleaseEdge
      else Ignored
    else Ignored
  }
}
