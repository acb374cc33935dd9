# konashi5 device protocol, modelled in Dafny

This project models the device-protocol layer of the konashi5 Python SDK. It
covers the byte frames each peripheral driver writes to the konashi5 board,
the notification frames it decodes, and the state the drivers keep between
the two. Scanning, connecting and the BLE client are not modelled.

The modules follow the SDK's files:

- `Wire` (wire.dfy) holds bytes and bit fields, little-endian 16- and 32-bit
  fields, the `bytearray` range check, Python's half-to-even `round`, and the
  SDK's error kinds.
- `Transport` (transport.dfy) models the retry discipline of
  `KonashiElementBase`. A call to the BLE client is retried while it reports
  "InProgress". Any other failure becomes a `KonashiError`. With no client
  the call raises a connection error and the client is never called. The
  client is an oracle: the sequence of outcomes it reports.
- `Frames` (frames.dfy) is the nested loop every `config_pins` and
  `control_pins` runs. For each (mask, value) entry, and for each pin whose
  mask bit is set, in ascending order, it checks the pin and appends that
  pin's bytes. The check raises before anything is written. `Frames.Picked`
  is the mask selection the `get_pins_*` and `read_pins` calls return.
- `Transitions` (transitions.dfy) is the ongoing-transition list of both
  PWM drivers.
- `Pending` (pending.dfy) is the one-slot pending response of I2C, SPI and
  UART.
- `Gpio`, `SoftPwm`, `HardPwm`, `Analog`, `I2C`, `SPI` and `UART` are the
  peripheral drivers. Each driver is a class whose fields mirror what the
  device last reported. The GPIO driver's configuration mirror is also the
  pin table: the PWM, I2C and SPI drivers read it before they take a pin.
- `Bluetooth` and `System` are the settings drivers. `RGBLed` is the
  built-in LED.

Each driver command returns the result and `sent`, the client calls it made.
A call that fails before its write has `sent == []` and changes no field.
Notification handlers are methods. Each replaces a mirror and returns the
callback events it fires.

## Model

| member | source | states |
|---|---|---|
| Wire.BitOf | konashi5-sdk-python-develop/src/konashi/Io/Gpio.py:91 | a flag is stored as 1 exactly when it is true |
| Wire.HighLow | konashi5-sdk-python-develop/src/konashi/Io/Gpio.py:195 | a `(i<<4)\|nibble` byte gives back the pin index as its high nibble and the value as its low nibble |
| Wire.OrAtLeast | konashi5-sdk-python-develop/src/konashi/Io/Gpio.py:244 | `a \| b` on non-negative integers is at least each operand, so a control code above 0xFF makes a byte over 0xFF |
| Wire.OrBelow | konashi5-sdk-python-develop/src/konashi/Io/Gpio.py:244 | `a \| b` of two k-bit values is a k-bit value, so an index below 8 or-ed with a byte is a byte |
| Wire.OrShift | konashi5-sdk-python-develop/src/konashi/Io/Gpio.py:244 | a value shifted left by k or-ed with a k-bit value is their sum |
| Wire.OrNibbles | konashi5-sdk-python-develop/src/konashi/Io/Gpio.py:244 | `(hi<<4)\|lo` for two nibbles is the HighLow byte |
| Wire.ByteArray | konashi5-sdk-python-develop/src/konashi/Settings/Bluetooth.py:132 | `bytearray` succeeds exactly when every value lies in 0..255 and then keeps the values in order; otherwise ValueError |
| Wire.LE16RoundTrip | konashi5-sdk-python-develop/src/konashi/Io/SoftPWM.py:37-43 | a 16-bit field written little-endian reads back unchanged |
| Wire.LE16Exact | konashi5-sdk-python-develop/src/konashi/Io/SoftPWM.py:37-43 | every two bytes are the little-endian encoding of the field they read as |
| Wire.LE32RoundTrip | konashi5-sdk-python-develop/src/konashi/Io/SoftPWM.py:82-89 | a 32-bit field written little-endian reads back unchanged |
| Wire.LE32Exact | konashi5-sdk-python-develop/src/konashi/Io/SoftPWM.py:82-89 | every four bytes are the little-endian encoding of the field they read as |
| Wire.Round | konashi5-sdk-python-develop/src/konashi/Io/HardPWM.py:296-298 | `round` lands within one half of its argument |
| Wire.RoundInt | konashi5-sdk-python-develop/src/konashi/Io/HardPWM.py:296-298 | `round` leaves a whole number unchanged |
| Wire.RoundBetween | konashi5-sdk-python-develop/src/konashi/Io/HardPWM.py:296-298 | rounding a value between two integers stays between them |
| Transport.FirstSettled | konashi5-sdk-python-develop/build/lib/konashi/KonashiElementBase.py:31-37 | the retry loop stops at the first outcome that is not "InProgress", and every earlier one was "InProgress" |
| Transport.Calls | konashi5-sdk-python-develop/build/lib/konashi/KonashiElementBase.py:31-37 | every retry repeats the same client call |
| Transport.Perform | konashi5-sdk-python-develop/build/lib/konashi/KonashiElementBase.py:43-58 | with no client the operation raises a connection error and calls nothing; otherwise it succeeds exactly when the last call completed, and every earlier call was "InProgress" |
| Transport.OneSuccess | konashi5-sdk-python-develop/build/lib/konashi/KonashiElementBase.py:31-34 | an operation makes exactly one successful client call when it succeeds, and none when it fails |
| Transport.NoneCompletedWhileBusy | konashi5-sdk-python-develop/build/lib/konashi/KonashiElementBase.py:35-37 | no call completes while the client keeps reporting "InProgress" |
| Frames.PinsBelow | konashi5-sdk-python-develop/src/konashi/Io/Gpio.py:191-192 | one entry selects only pins below the count whose mask bit is set, each with the entry's value |
| Frames.PinsBelowExact | konashi5-sdk-python-develop/src/konashi/Io/Gpio.py:191-192 | one entry selects every pin whose mask bit is set, in strictly ascending order |
| Frames.Selection | konashi5-sdk-python-develop/src/konashi/Io/Gpio.py:190-192 | every selected pin lies below the pin count |
| Frames.SelectionMembers | konashi5-sdk-python-develop/src/konashi/Io/Gpio.py:190-192 | a (pin, value) pair is selected exactly when some entry carries that value and has the pin's mask bit set |
| Frames.Build | konashi5-sdk-python-develop/src/konashi/Io/Gpio.py:189-196 | the loop builds exactly the frame the specification function assembles, or raises the same error |
| Frames.BuildEntry | konashi5-sdk-python-develop/src/konashi/Io/Gpio.py:191-195 | the inner loop either passes every selected pin and appends their bytes, or stops at a selected pin whose check fails, with every pin before it passed |
| Frames.FailureStops | konashi5-sdk-python-develop/src/konashi/Io/Gpio.py:193-194 | the error the loop stops at is the error of the whole call |
| Frames.FirstErrorNone | konashi5-sdk-python-develop/src/konashi/Io/Gpio.py:193-194 | a call raises nothing exactly when every selected pin passes its check |
| Frames.FirstErrorIsEarliest | konashi5-sdk-python-develop/src/konashi/Io/Gpio.py:193-194 | the error raised is the check failure of some selected pin |
| Frames.AssembleOk | konashi5-sdk-python-develop/src/konashi/Io/Gpio.py:189-196 | a frame is built exactly when every pin that any entry selects passes its check |
| Frames.BodyLength | konashi5-sdk-python-develop/src/konashi/Io/Gpio.py:195 | pins of equal width give a body of that width times the number of selected pins |
| Frames.BodyChunk | konashi5-sdk-python-develop/src/konashi/Io/Gpio.py:195 | the k-th selected pin's bytes sit at offset width times k of the body |
| Frames.FrameLength | konashi5-sdk-python-develop/src/konashi/Io/Gpio.py:189-196 | a built frame is the selector and then a fixed number of bytes per selected pin |
| Frames.FrameChunk | konashi5-sdk-python-develop/src/konashi/Io/Gpio.py:189-196 | the k-th selected pin owns its own bytes of the built frame, right after the selector |
| Frames.Pick | konashi5-sdk-python-develop/src/konashi/Io/Gpio.py:259-269 | the `read_pins` loop returns the selection `Picked` describes |
| Frames.PickedOrder | konashi5-sdk-python-develop/src/konashi/Io/Gpio.py:259-269 | a read returns one entry for each set mask bit below the count, in ascending pin order |
| Transitions.Remove | konashi5-sdk-python-develop/src/konashi/Io/SoftPWM.py:161 | removing a listed pin shortens the list by one; removing an unlisted pin changes nothing |
| Transitions.RemoveMembers | konashi5-sdk-python-develop/src/konashi/Io/SoftPWM.py:161 | removal keeps the list free of duplicates and drops exactly that pin |
| Transitions.Merge | konashi5-sdk-python-develop/src/konashi/Io/SoftPWM.py:249-252 | the append loop computes `Merged` |
| Transitions.MergedProps | konashi5-sdk-python-develop/src/konashi/Io/SoftPWM.py:249-252 | after a control write the list has no duplicates, keeps its old order as a prefix, and holds exactly the old pins and the controlled pins |
| Transitions.Ended | konashi5-sdk-python-develop/src/konashi/Io/SoftPWM.py:158-163 | the handler ends only pins below the pin count |
| Transitions.EndedExact | konashi5-sdk-python-develop/src/konashi/Io/SoftPWM.py:158-163 | a pin ends exactly when it is listed and its duration is 0, and pins end in ascending order |
| Transitions.EndStep | konashi5-sdk-python-develop/src/konashi/Io/SoftPWM.py:158-163 | one step of the handler's loop ends pin i exactly when it is still listed and reports duration 0, and removes it |
| Transitions.EndedFirst | konashi5-sdk-python-develop/src/konashi/Io/HardPWM.py:176-181 | when nothing below pin i ended and pin i ends, pin i is the first pin ended |
| Transitions.FirstEnd | konashi5-sdk-python-develop/src/konashi/Io/HardPWM.py:176-181 | the first pin ended is removed on its own and the rest stays listed |
| Transitions.RemoveAllMembers | konashi5-sdk-python-develop/src/konashi/Io/SoftPWM.py:158-163 | removing several pins keeps the list free of duplicates and drops exactly those pins |
| Transitions.SettledOnce | konashi5-sdk-python-develop/src/konashi/Io/SoftPWM.py:158-163 | after the handler, no listed pin reports duration 0, so the same frame again ends nothing and fires no callback |
| Transitions.NoneEnded | konashi5-sdk-python-develop/src/konashi/Io/SoftPWM.py:158-163 | when no listed pin reports duration 0, nothing ends |
| Pending.Deliver | konashi5-sdk-python-develop/src/konashi/Io/I2C.py:100-103 | a reply resolves the slot exactly when the slot waits; otherwise the slot is unchanged |
| Pending.FirstReplyKept | konashi5-sdk-python-develop/src/konashi/Io/I2C.py:100-103 | a second reply does not overwrite the first |
| Gpio.Claim | konashi5-sdk-python-develop/src/konashi/Io/HardPWM.py:238-239 | a pin can be taken exactly when it is DISABLED or already has the wanted function; the error names its current function, or is IndexError from the name lookup for a code with no name, since these drivers compare the raw code (the GPIO driver converts the code with `PinFunction` first, so there a code of 5 or more is a ValueError, as Gpio.ConfigCheck models) |
| Gpio.ClaimAll | konashi5-sdk-python-develop/src/konashi/Io/I2C.py:120-124 | a list of pins can be taken exactly when each can, and the error raised is one of theirs |
| Gpio.ClaimAllFirst | konashi5-sdk-python-develop/src/konashi/Io/I2C.py:120-124 | the error raised is the first pin's in checking order that cannot be taken |
| Gpio.NewConfig | konashi5-sdk-python-develop/src/konashi/Io/Gpio.py:61-91 | the four directions make the pin GPIO and anything else disables it; OUTPUT alone sets direction; OPEN_DRAIN sets wired 1 and OPEN_SOURCE wired 2; UP sets only pull-up and DOWN only pull-down, never both |
| Gpio.EncodeConfig | konashi5-sdk-python-develop/src/konashi/Io/Gpio.py:49-60 | a pin configuration is two bytes with the function in the low nibble of the first and six bits of flags in the second |
| Gpio.ConfigRoundTrip | konashi5-sdk-python-develop/src/konashi/Io/Gpio.py:49-60 | decoding an encoded configuration gives back every field, wherever it sits in a frame |
| Gpio.ConfigFromBytes | konashi5-sdk-python-develop/src/konashi/Io/Gpio.py:195 | a frame's function nibble and flag byte decode to the configuration they were built from |
| Gpio.ConfigExact | konashi5-sdk-python-develop/src/konashi/Io/Gpio.py:49-60 | every two bytes with no padding bits set encode the configuration they decode to |
| Gpio.DecodeConfigs | konashi5-sdk-python-develop/src/konashi/Io/Gpio.py:154-156 | a configuration notification gives one configuration per pin |
| Gpio.EncodeIO | konashi5-sdk-python-develop/src/konashi/Io/Gpio.py:119-126 | a pin's output or input byte has the level in bit 0 and the valid flag in bit 4 |
| Gpio.IORoundTrip | konashi5-sdk-python-develop/src/konashi/Io/Gpio.py:119-126 | decoding an encoded level and valid flag gives them back |
| Gpio.DecodeIOs | konashi5-sdk-python-develop/src/konashi/Io/Gpio.py:158-160 | an output or input notification gives one entry per pin |
| Gpio.LevelOf | konashi5-sdk-python-develop/src/konashi/Io/Gpio.py:252-257 | a pin reads INVALID exactly when its valid flag is clear, and HIGH exactly when it is valid and its level is 1 |
| Gpio.ControlCode | konashi5-sdk-python-develop/src/konashi/Io/Gpio.py:111-114 | the control codes are LOW, HIGH and TOGGLE, and TOGGLE is code 2 |
| Gpio.ConfigFrameAccepts | konashi5-sdk-python-develop/src/konashi/Io/Gpio.py:193-194 | `config_pins` builds a frame exactly when every selected pin is DISABLED or GPIO |
| Gpio.ControlFrameAccepts | konashi5-sdk-python-develop/src/konashi/Io/Gpio.py:238-245 | `control_pins` builds a frame exactly when every selected pin is GPIO and every control that selects a pin lies in 0..255; any other control value is a ValueError from `bytearray` |
| Gpio.ConfigFrameLength | konashi5-sdk-python-develop/src/konashi/Io/Gpio.py:189-196 | the `config_pins` frame is selector 0x01 and then two bytes per selected pin |
| Gpio.ConfigFrameLayout | konashi5-sdk-python-develop/src/konashi/Io/Gpio.py:189-196 | the k-th selected pin's first byte carries its index in the high nibble, and its two bytes decode to its configuration |
| Gpio.ConfigFrameBytes | konashi5-sdk-python-develop/src/konashi/Io/Gpio.py:195 | a selected pin's two bytes are its index and function, then its flag byte |
| Gpio.ConfigChunk | konashi5-sdk-python-develop/src/konashi/Io/Gpio.py:195 | the k-th selected pin's bytes are the two bytes it emits |
| Gpio.ControlFrameLayout | konashi5-sdk-python-develop/src/konashi/Io/Gpio.py:238-245 | the `control_pins` frame is selector 0x01 and then one byte per selected pin, `(i<<4)\|code`; for a code below 16, such as a PinControl, that is the index above the code |
| Gpio.ControlFrameBytes | konashi5-sdk-python-develop/src/konashi/Io/Gpio.py:244 | a selected pin's byte is `(i<<4)\|code`, and the index and code as nibbles when the code is below 16 |
| Gpio.EdgesExact | konashi5-sdk-python-develop/src/konashi/Io/Gpio.py:162-170 | the input callback fires for pin i exactly when the new byte is valid and its level differs from the stored level, in ascending pin order |
| Gpio.RepeatedFrameQuiet | konashi5-sdk-python-develop/src/konashi/Io/Gpio.py:162-170 | once the mirror holds a frame, the same frame again fires nothing |
| Gpio.Driver.Functions | konashi5-sdk-python-develop/src/konashi/Io/Gpio.py:193 | the pin table is the function nibble of each pin's mirrored configuration |
| Gpio.Driver.constructor | konashi5-sdk-python-develop/src/konashi/Io/Gpio.py:131-136 | every pin starts disabled, with no valid output or input and no callback |
| Gpio.Driver.SetInputCallback | konashi5-sdk-python-develop/src/konashi/Io/Gpio.py:207-220 | setting or clearing the callback changes no mirror |
| Gpio.Driver.OnConfig | konashi5-sdk-python-develop/src/konashi/Io/Gpio.py:154-156 | a long enough notification replaces the configuration mirror; a short one is a ValueError that changes nothing |
| Gpio.Driver.OnOutput | konashi5-sdk-python-develop/src/konashi/Io/Gpio.py:158-160 | a long enough notification replaces the output mirror; a short one is a ValueError that changes nothing |
| Gpio.Driver.OnInput | konashi5-sdk-python-develop/src/konashi/Io/Gpio.py:162-170 | the callback fires once per changed valid pin before the mirror is replaced; a short frame fires for the pins it has, then raises IndexError and keeps the mirror |
| Gpio.Driver.ConfigPins | konashi5-sdk-python-develop/src/konashi/Io/Gpio.py:173-196 | a pin conflict raises before any write; otherwise the assembled frame is written |
| Gpio.Driver.ControlPins | konashi5-sdk-python-develop/src/konashi/Io/Gpio.py:222-245 | a pin that is not GPIO raises before any write; otherwise the assembled frame is written |
| Gpio.Driver.GetPinsConfig | konashi5-sdk-python-develop/src/konashi/Io/Gpio.py:198-205 | after a successful read, returns the mirrored configuration of each selected pin in ascending order |
| Gpio.Driver.GetPinsControl | konashi5-sdk-python-develop/src/konashi/Io/Gpio.py:247-257 | after a successful read, returns the level of each selected pin's output, INVALID where not valid |
| Gpio.Driver.ReadPins | konashi5-sdk-python-develop/src/konashi/Io/Gpio.py:259-269 | after a successful read, returns the level of each selected pin's input, INVALID where not valid |
| SoftPwm.NewConfig | konashi5-sdk-python-develop/src/konashi/Io/SoftPWM.py:44-67 | a configuration is refused with ValueError exactly when a duty fixed value is outside 0..65535 or a period fixed value outside 0..1000; the type is compared as given; the stored type keeps its low 4 bits and the fixed value its low 16 bits, as the ctypes fields do |
| SoftPwm.EncodeConfig | konashi5-sdk-python-develop/src/konashi/Io/SoftPWM.py:37-43 | a configuration is three bytes |
| SoftPwm.ConfigRoundTrip | konashi5-sdk-python-develop/src/konashi/Io/SoftPWM.py:37-43 | decoding an encoded configuration gives back its control type and fixed value |
| SoftPwm.DecodeConfigs | konashi5-sdk-python-develop/src/konashi/Io/SoftPWM.py:152-154 | a configuration notification gives one configuration per channel |
| SoftPwm.NewControl | konashi5-sdk-python-develop/src/konashi/Io/SoftPWM.py:106-112 | a control is refused with ValueError exactly when the value is outside 0..65535 or the duration outside 0..4294967295; its control type is always 0 |
| SoftPwm.EncodeControl | konashi5-sdk-python-develop/src/konashi/Io/SoftPWM.py:82-89 | a control is seven bytes |
| SoftPwm.ControlRoundTrip | konashi5-sdk-python-develop/src/konashi/Io/SoftPWM.py:82-89 | decoding an encoded control gives back every field |
| SoftPwm.DecodeControls | konashi5-sdk-python-develop/src/konashi/Io/SoftPWM.py:156-158 | an output notification gives one control per channel |
| SoftPwm.ConfigFrameAccepts | konashi5-sdk-python-develop/src/konashi/Io/SoftPWM.py:185-187 | `config_pins` builds a frame exactly when each selected channel's GPIO pin (4 to 7) is DISABLED or PWM |
| SoftPwm.ControlFrameAccepts | konashi5-sdk-python-develop/src/konashi/Io/SoftPWM.py:237-246 | `control_pins` builds a frame exactly when each selected channel's pin is PWM, its type is duty or period, and a duty value is at most 1000 |
| SoftPwm.ConfigFrameLayout | konashi5-sdk-python-develop/src/konashi/Io/SoftPWM.py:182-189 | the frame has three bytes per selected channel; the k-th starts with the channel index in the high nibble and decodes to its configuration |
| SoftPwm.ConfigChunk | konashi5-sdk-python-develop/src/konashi/Io/SoftPWM.py:188 | a channel's three bytes carry its index and decode to its configuration |
| SoftPwm.ControlFrameLayout | konashi5-sdk-python-develop/src/konashi/Io/SoftPWM.py:247 | the frame has seven bytes per selected channel: its index, the value as LE16 and the duration as LE32, with no control-type byte |
| SoftPwm.ControlChunk | konashi5-sdk-python-develop/src/konashi/Io/SoftPWM.py:247 | a channel's seven bytes carry its index, value and duration |
| SoftPwm.Controlled | konashi5-sdk-python-develop/src/konashi/Io/SoftPWM.py:248 | the controlled channels all lie below the channel count |
| SoftPwm.Finished | konashi5-sdk-python-develop/src/konashi/Io/SoftPWM.py:160 | one finished flag per channel |
| SoftPwm.KeepStep | konashi5-sdk-python-develop/src/konashi/Io/SoftPWM.py:159-160 | a pass for a channel that is not listed or still in transition changes neither the list nor the events |
| SoftPwm.EndsStep | konashi5-sdk-python-develop/src/konashi/Io/SoftPWM.py:159-163 | a pass for a listed channel at duration 0 removes it and, with a callback set, fires once with its type and value |
| SoftPwm.EndTransitions | konashi5-sdk-python-develop/src/konashi/Io/SoftPWM.py:158-163 | the handler's loop removes every listed channel that reports duration 0, in ascending order, firing once for each when a callback is set (the list that results is described by Transitions.SettledOnce) |
| SoftPwm.Driver.ConfigTypes | konashi5-sdk-python-develop/src/konashi/Io/SoftPWM.py:237-246 | each channel's control type is read from its mirrored configuration |
| SoftPwm.Driver.constructor | konashi5-sdk-python-develop/src/konashi/Io/SoftPWM.py:130-136 | every channel starts disabled, with no ongoing transition and no callback |
| SoftPwm.Driver.SetTransitionEndCallback | konashi5-sdk-python-develop/src/konashi/Io/SoftPWM.py:200-212 | setting or clearing the callback changes no mirror |
| SoftPwm.Driver.OnConfig | konashi5-sdk-python-develop/src/konashi/Io/SoftPWM.py:152-154 | a long enough notification replaces the configuration mirror; a short one is a ValueError that changes nothing |
| SoftPwm.Driver.OnOutput | konashi5-sdk-python-develop/src/konashi/Io/SoftPWM.py:156-163 | the output mirror is replaced, then every ongoing channel now at duration 0 leaves the list and fires once; a short frame changes nothing |
| SoftPwm.Driver.ConfigPins | konashi5-sdk-python-develop/src/konashi/Io/SoftPWM.py:166-189 | a pin conflict raises before any write; otherwise the assembled frame is written |
| SoftPwm.Driver.ControlPins | konashi5-sdk-python-develop/src/konashi/Io/SoftPWM.py:214-252 | a refused channel raises before any write and leaves the list; after a successful write every controlled channel is listed once, and a failed write leaves the list |
| SoftPwm.Driver.GetPinsConfig | konashi5-sdk-python-develop/src/konashi/Io/SoftPWM.py:191-198 | after a successful read, returns each selected channel's mirrored configuration in ascending order |
| SoftPwm.Driver.GetPinsControl | konashi5-sdk-python-develop/src/konashi/Io/SoftPWM.py:254-261 | after a successful read, returns each selected channel's mirrored control in ascending order |
| HardPwm.NewPwmConfig | konashi5-sdk-python-develop/src/konashi/Io/HardPWM.py:71-92 | a timer configuration is refused with ValueError exactly when TOP is outside 0..65535; the clock and prescaler keep their low 4 bits, as the ctypes fields do |
| HardPwm.EncodePwm | konashi5-sdk-python-develop/src/konashi/Io/HardPWM.py:65-71 | a timer configuration is three bytes |
| HardPwm.PwmRoundTrip | konashi5-sdk-python-develop/src/konashi/Io/HardPWM.py:65-71 | decoding the prescale and clock nibbles and the LE16 TOP gives back the configuration |
| HardPwm.DecodeConfig | konashi5-sdk-python-develop/src/konashi/Io/HardPWM.py:106-111 | a configuration notification gives one enable bit per pin and the timer configuration |
| HardPwm.NewControl | konashi5-sdk-python-develop/src/konashi/Io/HardPWM.py:113-138 | a control is refused with ValueError exactly when the value is outside 0..65535 or the duration outside 0..4294967295; the analog driver's control, with the same ranges and layout, is this one |
| HardPwm.EncodeControl | konashi5-sdk-python-develop/src/konashi/Io/HardPWM.py:113-118 | a control is six bytes |
| HardPwm.ControlRoundTrip | konashi5-sdk-python-develop/src/konashi/Io/HardPWM.py:113-118 | decoding an encoded control gives back its value and duration |
| HardPwm.DecodeControls | konashi5-sdk-python-develop/src/konashi/Io/HardPWM.py:174-176 | an output notification gives one control per pin |
| HardPwm.HfRates | konashi5-sdk-python-develop/src/konashi/Io/HardPWM.py:37-48 | the HF clock rate for prescaler d is 38.4 MHz divided by 2 to the d, for all eleven prescalers |
| HardPwm.SlowestRate | konashi5-sdk-python-develop/src/konashi/Io/HardPWM.py:37-48 | every HF prescaler runs faster than the 20 kHz cascade clock |
| HardPwm.HfTop | konashi5-sdk-python-develop/src/konashi/Io/HardPWM.py:189-190 | the HF TOP is the period in ticks of that prescaler, rounded |
| HardPwm.CascadeTop | konashi5-sdk-python-develop/src/konashi/Io/HardPWM.py:198 | the cascade TOP is the period in 20 kHz ticks, rounded |
| HardPwm.FirstFit | konashi5-sdk-python-develop/src/konashi/Io/HardPWM.py:185-195 | the search returns the smallest prescaler whose TOP fits 16 bits, and none only when no prescaler fits |
| HardPwm.CalcPwmConfigForPeriod | konashi5-sdk-python-develop/src/konashi/Io/HardPWM.py:184-201 | the search loop returns the configuration the specification function chooses |
| HardPwm.PeriodNear | konashi5-sdk-python-develop/src/konashi/Io/HardPWM.py:184-201 | a chosen configuration's TOP is within half a tick of the period |
| HardPwm.HfTicks | konashi5-sdk-python-develop/src/konashi/Io/HardPWM.py:185-195 | an HF configuration's TOP is within half a tick of the period |
| HardPwm.CascadeTicks | konashi5-sdk-python-develop/src/konashi/Io/HardPWM.py:196-201 | a cascade configuration's TOP is within half a tick of the period |
| HardPwm.PeriodLeast | konashi5-sdk-python-develop/src/konashi/Io/HardPWM.py:184-201 | an HF configuration has the least prescaler that fits; the cascade clock, undivided, is chosen only when no HF prescaler fits |
| HardPwm.PeriodFits | konashi5-sdk-python-develop/src/konashi/Io/HardPWM.py:196-201 | every period from 0 to the cascade clock's range gets a configuration |
| HardPwm.PeriodTooLong | konashi5-sdk-python-develop/src/konashi/Io/HardPWM.py:198-201 | a period beyond the cascade clock's range raises ValueError |
| HardPwm.HfOverflow | konashi5-sdk-python-develop/src/konashi/Io/HardPWM.py:185-195 | a period beyond the cascade range overflows every HF prescaler too |
| HardPwm.NegativePeriod | konashi5-sdk-python-develop/src/konashi/Io/HardPWM.py:184-195 | a negative period that is accepted gets TOP 0 on the undivided HF clock |
| HardPwm.DutyOf | konashi5-sdk-python-develop/src/konashi/Io/HardPWM.py:203-204 | the duty fails with ZeroDivisionError exactly when TOP is 0, and a value up to TOP gives a duty from 0 to 100 |
| HardPwm.DutyBounds | konashi5-sdk-python-develop/src/konashi/Io/HardPWM.py:203-204 | a value up to TOP is a duty from 0 to 100 percent |
| HardPwm.ControlValueForDuty | konashi5-sdk-python-develop/src/konashi/Io/HardPWM.py:296-298 | a duty from 0 to 100 gives a control value from 0 to TOP |
| HardPwm.ScaledBounds | konashi5-sdk-python-develop/src/konashi/Io/HardPWM.py:296-298 | the rounded duty scaling stays within 0..TOP |
| HardPwm.DutyRoundTrip | konashi5-sdk-python-develop/src/konashi/Io/HardPWM.py:296-298 | the control value for the duty a value reports is that value again |
| HardPwm.PwmFrame | konashi5-sdk-python-develop/src/konashi/Io/HardPWM.py:209-211 | the `config_pwm` frame is five bytes starting 0x03, 0xFF |
| HardPwm.PwmFrameRoundTrip | konashi5-sdk-python-develop/src/konashi/Io/HardPWM.py:209-211 | the last three bytes of the `config_pwm` frame decode to the configuration |
| HardPwm.ConfigFrameAccepts | konashi5-sdk-python-develop/src/konashi/Io/HardPWM.py:234-241 | `config_pins` builds a frame exactly when each selected pin (0 to 3) is DISABLED or PWM |
| HardPwm.ControlFrameAccepts | konashi5-sdk-python-develop/src/konashi/Io/HardPWM.py:282-294 | `control_pins` builds a frame exactly when each selected pin is PWM |
| HardPwm.ConfigFrameLayout | konashi5-sdk-python-develop/src/konashi/Io/HardPWM.py:234-241 | the frame has one byte per selected pin: its index in the high nibble and its enable bit in the low nibble |
| HardPwm.ControlFrameLayout | konashi5-sdk-python-develop/src/konashi/Io/HardPWM.py:282-294 | the frame has seven bytes per selected pin: its index, then six bytes that decode to its control |
| HardPwm.ControlChunk | konashi5-sdk-python-develop/src/konashi/Io/HardPWM.py:289 | a pin's seven bytes carry its index and decode to its control |
| HardPwm.Controlled | konashi5-sdk-python-develop/src/konashi/Io/HardPWM.py:290 | the controlled pins all lie below the pin count |
| HardPwm.Finished | konashi5-sdk-python-develop/src/konashi/Io/HardPWM.py:178 | one finished flag per pin |
| HardPwm.KeepStep | konashi5-sdk-python-develop/src/konashi/Io/HardPWM.py:177-178 | a pass for a pin that is not listed or still in transition changes neither the list nor the events |
| HardPwm.QuietStep | konashi5-sdk-python-develop/src/konashi/Io/HardPWM.py:177-180 | with no callback set, a pass for a listed pin at duration 0 removes it and fires nothing |
| HardPwm.FireStep | konashi5-sdk-python-develop/src/konashi/Io/HardPWM.py:177-181 | with a callback set and TOP above 0, a pass for a listed pin at duration 0 removes it and fires once with its duty |
| HardPwm.AbortEnds | konashi5-sdk-python-develop/src/konashi/Io/HardPWM.py:177-181 | with a callback set and TOP 0, the first listed pin at duration 0 is removed and the duty computation raises ZeroDivisionError, leaving the other pins listed |
| HardPwm.EndTransitions | konashi5-sdk-python-develop/src/konashi/Io/HardPWM.py:176-181 | every listed pin at duration 0 leaves the list and fires once with its duty, in ascending order; with TOP 0 and a callback set, the first such pin leaves and then ZeroDivisionError stops the loop |
| HardPwm.Driver.constructor | konashi5-sdk-python-develop/src/konashi/Io/HardPWM.py:148-154 | every pin starts disabled with TOP 0, no ongoing transition and no callback |
| HardPwm.Driver.SetTransitionEndCallback | konashi5-sdk-python-develop/src/konashi/Io/HardPWM.py:252-264 | setting or clearing the callback changes no mirror |
| HardPwm.Driver.OnConfig | konashi5-sdk-python-develop/src/konashi/Io/HardPWM.py:170-172 | a long enough notification replaces the configuration mirror; a short one is a ValueError that changes nothing |
| HardPwm.Driver.OnOutput | konashi5-sdk-python-develop/src/konashi/Io/HardPWM.py:174-181 | the output mirror is replaced, then the ended pins leave the list and fire as EndTransitions states; a short frame changes nothing |
| HardPwm.Driver.ConfigPwm | konashi5-sdk-python-develop/src/konashi/Io/HardPWM.py:207-211 | a period with no configuration raises before any write; otherwise the chosen configuration's frame is written |
| HardPwm.Driver.GetPwmConfig | konashi5-sdk-python-develop/src/konashi/Io/HardPWM.py:213-216 | after a successful read, returns the mirrored timer configuration |
| HardPwm.Driver.ConfigPins | konashi5-sdk-python-develop/src/konashi/Io/HardPWM.py:218-241 | a pin conflict raises before any write; otherwise the assembled frame is written |
| HardPwm.Driver.ControlPins | konashi5-sdk-python-develop/src/konashi/Io/HardPWM.py:266-294 | a pin that is not PWM raises before any write; after a successful write every controlled pin is listed once |
| HardPwm.Driver.GetPinsConfig | konashi5-sdk-python-develop/src/konashi/Io/HardPWM.py:243-250 | after a successful read, returns each selected pin's enable bit in ascending order |
| HardPwm.Driver.GetPinsControl | konashi5-sdk-python-develop/src/konashi/Io/HardPWM.py:300-307 | after a successful read, returns each selected pin's mirrored control in ascending order |
| Analog.NewPinConfig | konashi5-sdk-python-develop/build/lib/konashi/Io/Analog.py:53-75 | the enabled, direction and send-on-change arguments land in their fields |
| Analog.EncodePinConfig | konashi5-sdk-python-develop/build/lib/konashi/Io/Analog.py:53-61 | a pin configuration fits a nibble |
| Analog.PinConfigRoundTrip | konashi5-sdk-python-develop/build/lib/konashi/Io/Analog.py:53-61 | direction in bit 0, send-on-change in bit 1 and enabled in bit 3 decode back |
| Analog.DecodeConfig | konashi5-sdk-python-develop/build/lib/konashi/Io/Analog.py:87-92 | a configuration notification gives one pin configuration per pin and the references |
| Analog.DecodeOutputs | konashi5-sdk-python-develop/build/lib/konashi/Io/Analog.py:126-138 | an output notification gives one output per pin |
| Analog.DecodeInputs | konashi5-sdk-python-develop/build/lib/konashi/Io/Analog.py:139-151 | an input notification gives each pin's valid byte and its LE16 value |
| Analog.ChangesExact | konashi5-sdk-python-develop/build/lib/konashi/Io/Analog.py:186-194 | the input callback fires for pin i exactly when the new entry is valid and its value differs from the stored one, in ascending order |
| Analog.RepeatedInputQuiet | konashi5-sdk-python-develop/build/lib/konashi/Io/Analog.py:186-194 | the same readings again fire nothing |
| Analog.AdcScale | konashi5-sdk-python-develop/build/lib/konashi/Io/Analog.py:197-209 | only the 1.25 V, 2.5 V and VDD references have a scale, of 1.25, 2.5 or 3.3 volts |
| Analog.VoltageForValue | konashi5-sdk-python-develop/build/lib/konashi/Io/Analog.py:197-209 | a reading has a voltage exactly when the reference has a scale, and the voltage is value times scale over 65535 |
| Analog.VoltageRange | konashi5-sdk-python-develop/build/lib/konashi/Io/Analog.py:197-209 | voltages lie from 0 to the scale, grow with the reading, and 65535 reads as the full scale |
| Analog.VdacScale | konashi5-sdk-python-develop/build/lib/konashi/Io/Analog.py:320-330 | VDAC reference 0 is Disabled, above 5 is Invalid, and otherwise the scale is 1.25, 2.5 or 3.3 volts |
| Analog.ControlValueForVoltage | konashi5-sdk-python-develop/build/lib/konashi/Io/Analog.py:320-333 | reference errors pass through; a voltage above the scale is a ValueError; a result is at most 4095 and lies within half a step of voltage·4095/scale |
| Analog.VoltageEnds | konashi5-sdk-python-develop/build/lib/konashi/Io/Analog.py:331-335 | 0 V gives 0 and the full scale gives 4095 |
| Analog.IdacSpan | konashi5-sdk-python-develop/build/lib/konashi/Io/Analog.py:353-370 | IDAC range 0 is Disabled, above 4 is Invalid, and otherwise the span runs between two positive currents |
| Analog.ControlValueForCurrent | konashi5-sdk-python-develop/build/lib/konashi/Io/Analog.py:353-373 | range errors pass through; a current outside the span is a ValueError; a result lies in 0..31 and within half a step of (current−first)·31/(last−first) |
| Analog.CurrentEnds | konashi5-sdk-python-develop/build/lib/konashi/Io/Analog.py:371-373 | the span's first current gives 0 and its last gives 31 |
| Analog.AdcPeriodFrame | konashi5-sdk-python-develop/build/lib/konashi/Io/Analog.py:225-228 | a period is refused exactly when outside 0.1..25.6 s; otherwise the frame is 0x04, 0xF0 and the rounded period in tenths minus one |
| Analog.SettingFrame | konashi5-sdk-python-develop/build/lib/konashi/Io/Analog.py:231-244 | a reference frame is 0x04 then the sub-command in the high nibble and the setting's low nibble |
| Analog.ConfigFrameLayout | konashi5-sdk-python-develop/build/lib/konashi/Io/Analog.py:262-267 | `config_pins` always builds a frame: 0x04 then one byte per selected pin holding its index and configuration nibble |
| Analog.ControlFrameLayout | konashi5-sdk-python-develop/build/lib/konashi/Io/Analog.py:295-299 | `control_pins` always builds a frame: 0x04 then seven bytes per selected pin, its index and its control |
| Analog.ControlOf | konashi5-sdk-python-develop/build/lib/konashi/Io/Analog.py:375-385 | a pin reports no control exactly when its output is not valid |
| Analog.NegativeVoltageAccepted | konashi5-sdk-python-develop/build/lib/konashi/Io/Analog.py:331-333 | as written, -1.25 V on the 1.25 V reference gives the control value -4095 |
| Analog.ControlValueForVoltageChecked | konashi5-sdk-python-develop/build/lib/konashi/Io/Analog.py:320-333 | corrected: a voltage outside 0..scale is a ValueError, a result lies in 0..4095, and otherwise it agrees with the code as written |
| Analog.Driver.constructor | konashi5-sdk-python-develop/build/lib/konashi/Io/Analog.py:155-160 | every pin and every reference starts disabled, with no callback |
| Analog.Driver.SetInputCallback | konashi5-sdk-python-develop/build/lib/konashi/Io/Analog.py:269-272 | setting or clearing the callback changes no mirror |
| Analog.Driver.OnConfig | konashi5-sdk-python-develop/build/lib/konashi/Io/Analog.py:178-180 | a long enough notification replaces the configuration mirror; a short one is a ValueError that changes nothing |
| Analog.Driver.OnOutput | konashi5-sdk-python-develop/build/lib/konashi/Io/Analog.py:182-184 | a long enough notification replaces the output mirror; a short one is a ValueError that changes nothing |
| Analog.Driver.OnInput | konashi5-sdk-python-develop/build/lib/konashi/Io/Analog.py:186-194 | the callback fires once per changed valid pin and the input mirror is replaced; a short frame changes nothing |
| Analog.Driver.ConfigAdcPeriod | konashi5-sdk-python-develop/build/lib/konashi/Io/Analog.py:211-229 | a period out of range raises before any write; otherwise its frame is written |
| Analog.Driver.ConfigSetting | konashi5-sdk-python-develop/build/lib/konashi/Io/Analog.py:231-244 | the ADC, VDAC and IDAC setters write their reference frame |
| Analog.Driver.GetAnalogConfig | konashi5-sdk-python-develop/build/lib/konashi/Io/Analog.py:246-249 | after a successful read, returns the mirrored references |
| Analog.Driver.ConfigPins | konashi5-sdk-python-develop/build/lib/konashi/Io/Analog.py:251-267 | the frame is written with no pin check |
| Analog.Driver.ControlPins | konashi5-sdk-python-develop/build/lib/konashi/Io/Analog.py:284-300 | the frame is written with no pin check |
| Analog.Driver.GetPinsConfig | konashi5-sdk-python-develop/build/lib/konashi/Io/Analog.py:275-282 | after a successful read, returns each selected pin's mirrored configuration in ascending order |
| Analog.Driver.GetPinsControl | konashi5-sdk-python-develop/build/lib/konashi/Io/Analog.py:375-385 | after a successful read, returns each selected pin's control, or none where its output is not valid |
| Analog.Driver.ReadPins | konashi5-sdk-python-develop/build/lib/konashi/Io/Analog.py:387-397 | after a successful read, returns each selected pin's voltage under the mirrored ADC reference |
| I2C.NewConfig | konashi5-sdk-python-develop/src/konashi/Io/I2C.py:36-45 | the enable flag and a valid mode land in their bits |
| I2C.EncodeConfig | konashi5-sdk-python-develop/src/konashi/Io/I2C.py:36-42 | the configuration byte uses only bits 0 and 1 |
| I2C.ConfigRoundTrip | konashi5-sdk-python-develop/src/konashi/Io/I2C.py:36-42 | decoding the configuration byte gives back mode and enable |
| I2C.ConfigFrame | konashi5-sdk-python-develop/src/konashi/Io/I2C.py:120-125 | an enabled bus is accepted exactly when SDA and SCL are DISABLED or I2C; a disabled one is never checked; the frame is 0x05 and the configuration byte |
| I2C.SdaFirst | konashi5-sdk-python-develop/src/konashi/Io/I2C.py:120-122 | when SDA is taken, the error names SDA whatever SCL is |
| I2C.TransactionFrame | konashi5-sdk-python-develop/src/konashi/Io/I2C.py:168 | the frame is 0x05, operation, read length and address, then the data; only a header value that is not a byte fails |
| I2C.LimitsNotEnforced | konashi5-sdk-python-develop/src/konashi/Io/I2C.py:162-167 | an address, read length or data length over the documented limits is sent anyway |
| I2C.TransactionFrameChecked | konashi5-sdk-python-develop/src/konashi/Io/I2C.py:157-167 | corrected: a read length over 126, an address over 0x7F or more than 124 bytes of data is a ValueError, and otherwise the frame is the one the code as written sends |
| I2C.DecodeReply | konashi5-sdk-python-develop/src/konashi/Io/I2C.py:175-176 | a reply decodes exactly when it has two bytes and a known result code; an unknown code is ValueError and a short reply IndexError |
| I2C.ReplyRoundTrip | konashi5-sdk-python-develop/src/konashi/Io/I2C.py:66-72 | an encoded reply decodes to its result, address and data |
| I2C.Driver.constructor | konashi5-sdk-python-develop/src/konashi/Io/I2C.py:76-81 | the bus starts disabled in standard mode with no request under way |
| I2C.Driver.OnConfig | konashi5-sdk-python-develop/src/konashi/Io/I2C.py:96-98 | a non-empty notification replaces the configuration mirror; an empty one changes nothing |
| I2C.Driver.OnDataIn | konashi5-sdk-python-develop/src/konashi/Io/I2C.py:100-103 | the reply resolves a waiting request and otherwise changes nothing |
| I2C.Driver.Configure | konashi5-sdk-python-develop/src/konashi/Io/I2C.py:106-126 | a pin conflict raises before any write; otherwise the frame is written |
| I2C.Driver.GetConfig | konashi5-sdk-python-develop/src/konashi/Io/I2C.py:128-131 | after a successful read, returns the mirrored configuration |
| I2C.Driver.Transaction | konashi5-sdk-python-develop/src/konashi/Io/I2C.py:168-171 | the slot is armed before the write and stays armed whatever the write does; a frame that cannot be built arms nothing and sends nothing |
| I2C.Driver.Finish | konashi5-sdk-python-develop/src/konashi/Io/I2C.py:172-176 | once the reply is in, the slot is cleared and the reply decoded; until then nothing changes |
| SPI.NewConfig | konashi5-sdk-python-develop/build/lib/konashi/Io/SPI.py:53-57 | the enable flag, a valid mode and endianness and a 32-bit bitrate land in their fields |
| SPI.EncodeConfig | konashi5-sdk-python-develop/build/lib/konashi/Io/SPI.py:43-52 | a configuration is five bytes |
| SPI.ConfigRoundTrip | konashi5-sdk-python-develop/build/lib/konashi/Io/SPI.py:43-52 | decoding an encoded configuration gives back mode, endianness, enable and bitrate |
| SPI.ConfigFrame | konashi5-sdk-python-develop/build/lib/konashi/Io/SPI.py:126-135 | an enabled bus is accepted exactly when CS, CLK, MISO and MOSI are DISABLED or SPI; a disabled one is never checked; the frame is 0x07 and the configuration |
| SPI.ConfigFrameRoundTrip | konashi5-sdk-python-develop/build/lib/konashi/Io/SPI.py:135 | the configuration frame decodes back to the configuration |
| SPI.ClkSecond | konashi5-sdk-python-develop/build/lib/konashi/Io/SPI.py:126-134 | with CS free and CLK taken, the error names CLK: the pins are checked in the order 2, 5, 3, 4 |
| SPI.TransactionFrame | konashi5-sdk-python-develop/build/lib/konashi/Io/SPI.py:162-166 | the frame is 0x07 then the data, whatever its length |
| SPI.EmptyTransactionSent | konashi5-sdk-python-develop/build/lib/konashi/Io/SPI.py:162-166 | an empty transaction is sent as the bare selector 0x07 |
| SPI.TransactionFrameChecked | konashi5-sdk-python-develop/build/lib/konashi/Io/SPI.py:157-166 | corrected: data of 0 or more than 127 bytes is a ValueError, and otherwise the frame is the one the code as written sends |
| SPI.Driver.constructor | konashi5-sdk-python-develop/build/lib/konashi/Io/SPI.py:82-87 | the bus starts disabled with no request under way |
| SPI.Driver.OnConfig | konashi5-sdk-python-develop/build/lib/konashi/Io/SPI.py:102-104 | a five-byte notification replaces the configuration mirror; a short one changes nothing |
| SPI.Driver.OnDataIn | konashi5-sdk-python-develop/build/lib/konashi/Io/SPI.py:106-109 | the reply resolves a waiting request and otherwise changes nothing |
| SPI.Driver.Configure | konashi5-sdk-python-develop/build/lib/konashi/Io/SPI.py:112-136 | a pin conflict raises before any write; otherwise the frame is written |
| SPI.Driver.GetConfig | konashi5-sdk-python-develop/build/lib/konashi/Io/SPI.py:138-141 | after a successful read, returns the mirrored configuration |
| SPI.Driver.Transaction | konashi5-sdk-python-develop/build/lib/konashi/Io/SPI.py:166-169 | the slot is armed before the write and stays armed whatever the write does |
| SPI.Driver.Finish | konashi5-sdk-python-develop/build/lib/konashi/Io/SPI.py:170-173 | once the reply is in, the slot is cleared and the reply returned; until then nothing changes |
| UART.NewConfig | konashi5-sdk-python-develop/build/lib/konashi/Io/UART.py:40-53 | the enable flag, a 32-bit baud rate and valid parity and stop bits land in their fields |
| UART.EncodeConfig | konashi5-sdk-python-develop/build/lib/konashi/Io/UART.py:40-48 | a configuration is five bytes |
| UART.ConfigRoundTrip | konashi5-sdk-python-develop/build/lib/konashi/Io/UART.py:40-48 | decoding an encoded configuration gives back stop bits, parity, enable and baud rate |
| UART.ConfigFrame | konashi5-sdk-python-develop/build/lib/konashi/Io/UART.py:116-119 | the configuration frame is six bytes starting 0x06 |
| UART.ConfigFrameRoundTrip | konashi5-sdk-python-develop/build/lib/konashi/Io/UART.py:116-119 | the configuration frame decodes back to the configuration |
| UART.SendFrame | konashi5-sdk-python-develop/build/lib/konashi/Io/UART.py:158-162 | the send frame is 0x06 then the data, whatever its length |
| UART.EmptySendSent | konashi5-sdk-python-develop/build/lib/konashi/Io/UART.py:158-162 | an empty send is written as the bare selector 0x06 |
| UART.SendFrameChecked | konashi5-sdk-python-develop/build/lib/konashi/Io/UART.py:153-162 | corrected: data of 0 or more than 127 bytes is a ValueError, and otherwise the frame is the one the code as written sends |
| UART.Driver.constructor | konashi5-sdk-python-develop/build/lib/konashi/Io/UART.py:80-85 | the port starts disabled with no send under way and no callback |
| UART.Driver.SetDataInCallback | konashi5-sdk-python-develop/build/lib/konashi/Io/UART.py:126-137 | setting or clearing the callback leaves the configuration and the slot |
| UART.Driver.OnConfig | konashi5-sdk-python-develop/build/lib/konashi/Io/UART.py:101-103 | a five-byte notification replaces the configuration mirror; a short one changes nothing |
| UART.Driver.OnDataIn | konashi5-sdk-python-develop/build/lib/konashi/Io/UART.py:105-108 | every received frame goes to the callback when one is set, whatever the slot holds |
| UART.Driver.OnSendDone | konashi5-sdk-python-develop/build/lib/konashi/Io/UART.py:110-113 | the send-done frame resolves a waiting send and otherwise changes nothing |
| UART.Driver.Configure | konashi5-sdk-python-develop/build/lib/konashi/Io/UART.py:116-119 | the configuration frame is written with no pin check |
| UART.Driver.GetConfig | konashi5-sdk-python-develop/build/lib/konashi/Io/UART.py:121-124 | after a successful read, returns the mirrored configuration |
| UART.Driver.Send | konashi5-sdk-python-develop/build/lib/konashi/Io/UART.py:162-165 | the slot is armed before the write and stays armed whatever the write does |
| UART.Driver.FinishSend | konashi5-sdk-python-develop/build/lib/konashi/Io/UART.py:166-172 | once the reply is in, the slot is cleared and the send succeeded exactly when the reply is the single byte 0x01 |
| Bluetooth.DecodeSettings | konashi5-sdk-python-develop/src/konashi/Settings/Bluetooth.py:60-70 | the status and contents recombine to the LE32 at byte 3, and bytes 1 and 2 hold the PHY nibbles |
| Bluetooth.Bound | konashi5-sdk-python-develop/src/konashi/Settings/Bluetooth.py:121 | a Python slice index clamps into the sequence, counting a negative index from the end |
| Bluetooth.Slice | konashi5-sdk-python-develop/src/konashi/Settings/Bluetooth.py:121 | a Python slice is never longer than its sequence |
| Bluetooth.ReorderedShape | konashi5-sdk-python-develop/src/konashi/Settings/Bluetooth.py:121 | from four bytes on, the slice assignment puts the last four bytes, reversed, at 3..6 and keeps the rest; a shorter frame stays under seven bytes |
| Bluetooth.DeviceFrame | konashi5-sdk-python-develop/src/konashi/Settings/Bluetooth.py:119-122 | the device's settings frame is seven bytes |
| Bluetooth.SettingsRoundTrip | konashi5-sdk-python-develop/src/konashi/Settings/Bluetooth.py:119-122 | a frame with the 32-bit unit big-endian decodes, after the reordering, to the settings it carries |
| Bluetooth.BigEndianUnit | konashi5-sdk-python-develop/src/konashi/Settings/Bluetooth.py:119-122 | for a seven-byte frame, contents is bytes 3..6 read big-endian and kept to 28 bits, and status is the high nibble of byte 3 |
| Bluetooth.CommandFrame | konashi5-sdk-python-develop/src/konashi/Settings/Bluetooth.py:130-153 | every command frame starts with 0x02; the frame builds exactly when the sub-command nibble plus each argument is a byte (function 0..15, the three PHYs within their byte ranges, any contents) and is otherwise a ValueError |
| Bluetooth.CommandRoundTrip | konashi5-sdk-python-develop/src/konashi/Settings/Bluetooth.py:130-153 | every command with enumeration arguments builds a frame that reads back as the command, contents kept to 28 bits |
| Bluetooth.ContentsBytes | konashi5-sdk-python-develop/src/konashi/Settings/Bluetooth.py:150-153 | the four contents bytes recombine to the contents' low 28 bits |
| Bluetooth.Driver.constructor | konashi5-sdk-python-develop/src/konashi/Settings/Bluetooth.py:85-87 | the settings start zeroed |
| Bluetooth.Driver.OnSettings | konashi5-sdk-python-develop/src/konashi/Settings/Bluetooth.py:119-122 | a frame of four bytes or more is reordered and decoded into the mirror; a shorter one is a ValueError that changes nothing |
| Bluetooth.Driver.GetSettings | konashi5-sdk-python-develop/src/konashi/Settings/Bluetooth.py:125-128 | after a successful read, returns the mirrored settings |
| Bluetooth.Driver.Send | konashi5-sdk-python-develop/src/konashi/Settings/Bluetooth.py:130-153 | a frame that cannot be built raises before any write; otherwise it is written to the settings command characteristic |
| System.Code | konashi5-sdk-python-develop/src/konashi/Settings/System.py:26-33 | the seven command codes lie in 1..7 |
| System.CommandFrame | konashi5-sdk-python-develop/src/konashi/Settings/System.py:91-124 | every frame starts 0x01 and the command's code; only a save trigger that is not a byte is a ValueError |
| System.CommandRoundTrip | konashi5-sdk-python-develop/src/konashi/Settings/System.py:91-124 | every frame reads back as its command, so no two commands share a frame |
| System.Driver.constructor | konashi5-sdk-python-develop/src/konashi/Settings/System.py:58-60 | the settings start zeroed |
| System.Driver.OnSettings | konashi5-sdk-python-develop/src/konashi/Settings/System.py:81-83 | the first byte is the NVM use and the second the save trigger; a shorter frame is a ValueError that changes nothing |
| System.Driver.GetSettings | konashi5-sdk-python-develop/src/konashi/Settings/System.py:86-89 | after a successful read, returns the mirrored settings |
| System.Driver.Send | konashi5-sdk-python-develop/src/konashi/Settings/System.py:91-124 | a frame that cannot be built raises before any write; otherwise it is written |
| RGBLed.SetFrame | konashi5-sdk-python-develop/build/lib/konashi/Builtin/RGBLed.py:54 | the set frame is six bytes |
| RGBLed.DecodeNotify | konashi5-sdk-python-develop/build/lib/konashi/Builtin/RGBLed.py:37-42 | a notification decodes exactly when it is six bytes; otherwise struct.error |
| RGBLed.SetFrameRoundTrip | konashi5-sdk-python-develop/build/lib/konashi/Builtin/RGBLed.py:54 | the frame keeps each colour's low byte and the duration modulo 65536 as LE16 |
| RGBLed.Driver.constructor | konashi5-sdk-python-develop/build/lib/konashi/Builtin/RGBLed.py:22-24 | no callback waits at first |
| RGBLed.Driver.Set | konashi5-sdk-python-develop/build/lib/konashi/Builtin/RGBLed.py:45-57 | a callback is stored only after a successful write and only when one is given; leaving it out keeps one already waiting |
| RGBLed.Driver.OnNotify | konashi5-sdk-python-develop/build/lib/konashi/Builtin/RGBLed.py:37-42 | a waiting callback fires at most once, with the colour, and is cleared; a wrong-size frame fails first and changes nothing |

## Left out

- Floating point: periods, duties, voltages and currents are exact reals, and Python's `round` is exact half-to-even on them. IEEE rounding error is not modelled.
- Concurrency: the asyncio loop and future of I2C, SPI and UART are one pending slot. The awaiting half of `transaction` and `send` is a separate finish step. Timeouts and cancellation are not modelled.
- Callbacks are a flag saying whether one is set, and each handler returns the calls it makes as a list of events. Callback identity and what a callback does are not modelled.
- RGBLed.Driver.Set: the stored callback is a flag, so replacing one callback by another is not distinguished.
- The BLE client is an oracle of outcomes. Only oracles that eventually settle are modelled. Against a client that reports "InProgress" forever, the source loops forever.
- Scanning, connecting, `_on_connect` subscriptions and the `Konashi` object are not part of this model.
- The Bluetooth slice assignment is modelled on values. It assumes the notification buffer is a mutable `bytearray`; an immutable `bytes` would raise TypeError.
- TypeErrors from arguments of the wrong Python type are not modelled. Arguments are integers, booleans, reals or byte sequences.
- Enumeration arguments are plain integers, and only the checks the source makes on them are modelled, with these exceptions:
- Gpio.ControlCode: PinControl is a closed datatype of its three members. `control_pins` itself takes any integer code and is modelled on integers.
- RGBLed.DecodeNotify: the colour components are byte values. `struct.unpack` with `c` gives one-byte `bytes` objects, not integers, and this difference is not modelled.
- Padding bits of the configuration structures are not carried. The Gpio, SoftPwm, Analog, I2C, SPI and UART configurations are modelled by their named fields only. The source writes mirrored ctypes bytes back as they are: Gpio.py:195 ors byte 0 into the pin index, Analog.py:266 keeps bit 2, and SoftPWM.py:188, I2C.py:125, SPI.py:135 and UART.py:118 copy the whole structure. A configuration read back from the device with padding bits set is therefore sent by the source with those bits, and by the model without them.
- Default arguments are passed explicitly, for example Analog.NewPinConfig takes the direction and send-on-change flag that Analog.py:62 defaults to INPUT and True.
- Logging, `__str__` and `__repr__` are left out.
- The temperature, humidity, pressure, presence and accelerometer drivers, and the application scripts, are not part of this model.

## Findings

| source | as written | input that shows it | evidently intended | confidence | as-written member | corrected member |
|---|---|---|---|---|---|---|
| konashi5-sdk-python-develop/build/lib/konashi/Io/Analog.py:331-333 | only a voltage above the reference is refused, so a negative voltage passes and gives a negative control value | VDAC reference 1.25 V, voltage -1.25 gives -4095 | refuse a voltage below 0 as well, so the control value lies in 0..4095 | not executed | Analog.NegativeVoltageAccepted | Analog.ControlValueForVoltageChecked |
| konashi5-sdk-python-develop/src/konashi/Io/I2C.py:162-167 | the three limit checks build a ValueError but never raise it, so the documented limits are not enforced | address 0xFF and read length 0xFF are sent as they are | raise each ValueError, as the docstring promises | not executed | I2C.LimitsNotEnforced | I2C.TransactionFrameChecked |
| konashi5-sdk-python-develop/build/lib/konashi/Io/SPI.py:162-165 | the two length checks build a ValueError but never raise it | empty write data sends the bare selector 0x07 | refuse data of 0 or more than 127 bytes, as the docstring promises | not executed | SPI.EmptyTransactionSent | SPI.TransactionFrameChecked |
| konashi5-sdk-python-develop/build/lib/konashi/Io/UART.py:158-161 | the two length checks build a ValueError but never raise it | empty write data sends the bare selector 0x06 | refuse data of 0 or more than 127 bytes, as the docstring promises | not executed | UART.EmptySendSent | UART.SendFrameChecked |
