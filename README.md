# Multicopter throttle mix and device bus identifier

A Dafny model of two small pieces of the ArduPilot flight stack, both
defined inline in their headers.

- **AttitudeControl** (`attitude_control_multi.dfy`) models the multicopter
  attitude controller's throttle-versus-attitude mix state. The state holds
  the current mix, the desired mix (which the controller later slews the
  current mix toward) and three tunable presets: landing (`min`), manual
  throttle (`man`) and active flight (`max`). The class `AttitudeControlMulti`
  has these five fields as `real`s. Its setters either retarget the desired
  mix to a preset or snap both mixes to a value. Its two queries read the
  current mix and test whether it is below 1.25 times the landing preset.
  The abstract state `MixState` and the functions `MixToMin`, `MixToMan`,
  `MixToValue` and `NearMin` specify the methods. `Run` applies a sequence of
  setter calls, and lemmas over `Run` state what holds after any order of
  calls. The module also holds the compiled-in defaults of the roll, pitch
  and yaw rate PID controllers (`RateDefaults`).
- **HalDevice** (`device.dfy`) models the bus identifier that every bus
  device carries: a record of a 3-bit bus type, a 5-bit bus number, an 8-bit
  address and an 8-bit device type (`DeviceStructure`). The class `Device`
  holds that record. Its constructor records the bus type, three reads
  return fields, and two setters each write one field. The bus-type
  enumerator is stored through its integer value (`BusTypeValue`) and read
  back with `BusTypeOfField`. Storing into the 5-bit bus field keeps the low
  five bits (`TruncateToBits5`, written as a bit mask).

`set_throttle_mix_value` (AC_AttitudeControl_Multi.h:72) stores any value
unclamped, and so does the model; nothing here bounds the current mix to
`[min, max]`.

On the device side, `WithAddress` and `WithBus` give the record after each
setter; `Device.SetDeviceAddress` and `Device.SetDeviceBus` are proved to
produce exactly those records, so the lemmas over `Run` speak about sequences
of calls of the class's setters.

## Model

| member | source | states |
|---|---|---|
| AttitudeControl.RateDefaults | libraries/AC_AttitudeControl/AC_AttitudeControl_Multi.h:107-150 | every axis has zero feed-forward, no slew limit (srmax 0, srtau 1), imax 0.5, and 20 Hz target and derivative filters; the error filter is enabled exactly on the yaw axis; P and I are positive and D is non-negative |
| AttitudeControl.RollPitchShareDefaultsYawDiffers | libraries/AC_AttitudeControl/AC_AttitudeControl_Multi.h:10-39 | roll and pitch defaults are identical (P 0.135, I 0.135, D 0.0036, no error filter); yaw has P 0.180, I 0.018, D 0 and a 2.5 Hz error filter, and differs from both |
| AttitudeControl.PresetTargetsKeepCurrentMix | libraries/AC_AttitudeControl/AC_AttitudeControl_Multi.h:69-70 | aiming at the landing or manual preset sets the desired mix to that preset and leaves the current mix and all presets unchanged |
| AttitudeControl.MixToValueSnaps | libraries/AC_AttitudeControl/AC_AttitudeControl_Multi.h:72 | after setting a value, current mix and desired mix both equal it, the presets are unchanged, and setting the same value again changes nothing (idempotent) |
| AttitudeControl.NearMinAfterValue | libraries/AC_AttitudeControl/AC_AttitudeControl_Multi.h:72-76 | after setting value v, the near-minimum test holds iff v < 1.25 × landing preset |
| AttitudeControl.RunKeepsPresets | libraries/AC_AttitudeControl/AC_AttitudeControl_Multi.h:69-72 | no sequence of mix-setter calls changes any of the three presets |
| AttitudeControl.RunMixIsLastValue | libraries/AC_AttitudeControl/AC_AttitudeControl_Multi.h:69-72 | after any sequence of setter calls the current mix is the value of the last value-setting call, or the initial mix if there was none: retargeting to a preset never moves the current mix |
| AttitudeControl.RunEndingInValueIsSteady | libraries/AC_AttitudeControl/AC_AttitudeControl_Multi.h:72-76 | any sequence of calls ending in setting v leaves current and desired mix equal to v, and the near-minimum test then holds iff v < 1.25 × the original landing preset |
| AttitudeControl.AttitudeControlMulti.constructor | libraries/AC_AttitudeControl/AC_AttitudeControl_Multi.h:152-154 | the object starts with the given current and desired mix and the given presets |
| AttitudeControl.AttitudeControlMulti.SetThrottleMixMin | libraries/AC_AttitudeControl/AC_AttitudeControl_Multi.h:69 | the desired mix becomes the landing preset; only the desired mix may change (frame), so the current mix and the presets keep their values |
| AttitudeControl.AttitudeControlMulti.SetThrottleMixMan | libraries/AC_AttitudeControl/AC_AttitudeControl_Multi.h:70 | the desired mix becomes the manual preset; only the desired mix may change, so the current mix and the presets keep their values |
| AttitudeControl.AttitudeControlMulti.SetThrottleMixValue | libraries/AC_AttitudeControl/AC_AttitudeControl_Multi.h:72 | current and desired mix both become the value; the presets keep their values |
| AttitudeControl.AttitudeControlMulti.GetThrottleMix | libraries/AC_AttitudeControl/AC_AttitudeControl_Multi.h:73 | returns the current mix and changes no state |
| AttitudeControl.AttitudeControlMulti.IsThrottleMixMin | libraries/AC_AttitudeControl/AC_AttitudeControl_Multi.h:76 | returns true iff the current mix < 1.25 × landing preset, and changes no state |
| HalDevice.BusTypeValue | libraries/AP_HAL/Device.h:35-44 | every bus-type enumerator value lies in 0..7, so it fits a 3-bit field |
| HalDevice.BusTypeOfField | libraries/AP_HAL/Device.h:77-79 | the enumerator read from a 3-bit field has exactly that field's value |
| HalDevice.BusTypeFieldRoundTrip | libraries/AP_HAL/Device.h:371-372 | storing a bus type in the 3-bit field and reading it back gives the same enumerator, and every 3-bit value reads as an enumerator that stores back to it |
| HalDevice.TruncateToBits5 | libraries/AP_HAL/Device.h:373 | keeping the low five bits of a byte gives the byte modulo 32, and bytes below 32 are stored exactly |
| HalDevice.WithAddress | libraries/AP_HAL/Device.h:386-388 | the record after storing an address holds that full byte as its address and equals the old record in every other field |
| HalDevice.WithBus | libraries/AP_HAL/Device.h:391-393 | the record after storing a bus number holds it modulo 32 and equals the old record in every other field |
| HalDevice.SettersIndependent | libraries/AP_HAL/Device.h:386-393 | the address setter stores the full byte and the bus setter stores it modulo 32 (below 32); each changes only its own field; the two setters commute; a second write to the same field overrides the first |
| HalDevice.RunKeepsBusTypeAndDevtype | libraries/AP_HAL/Device.h:386-393 | no sequence of address and bus-number calls changes the bus type or the device type |
| HalDevice.RunSeparatesFields | libraries/AP_HAL/Device.h:386-393 | a sequence of bus-number calls alone keeps the address, and a sequence of address calls alone keeps the bus number |
| HalDevice.Device.constructor | libraries/AP_HAL/Device.h:71-74 | the bus-type field holds the given bus type, which reads back unchanged |
| HalDevice.Device.GetBusType | libraries/AP_HAL/Device.h:77-79 | returns the enumerator whose value is stored in the bus-type field, changing no state |
| HalDevice.Device.BusNum | libraries/AP_HAL/Device.h:82-84 | returns the stored bus number, which is always below 32, changing no state |
| HalDevice.Device.GetBusAddress | libraries/AP_HAL/Device.h:92-94 | returns the stored address, changing no state |
| HalDevice.Device.SetDeviceAddress | libraries/AP_HAL/Device.h:386-388 | the address field becomes the given byte; bus type, bus number and device type are unchanged; the new record is `WithAddress` of the old one |
| HalDevice.Device.SetDeviceBus | libraries/AP_HAL/Device.h:391-393 | the bus-number field becomes the given byte modulo 32; bus type, address and device type are unchanged; the new record is `WithBus` of the old one |

## Left out

- Mix values and the rate-PID default constants (`0.135f`, `0.0036f`, `0.180f`, `0.018f` and the others) are mathematical reals: single-precision rounding of those literals and of `1.25f * _thr_mix_min` is not modelled.
- AttitudeControl.AttitudeControlMulti.constructor: the initial current and desired mix come from the shared attitude-controller base class and the presets from the parameter store, neither of which is part of this model, so the constructor takes all five values as parameters.
- `set_throttle_mix_max`, `update_throttle_rpy_mix` (the slew of the current mix toward the desired mix), `get_throttle_avg_max`, `get_throttle_boosted`, `set_throttle_out`, `update_althold_lean_angle_max`, `update_throttle_gain_boost`, `parameter_sanity_check` and `set_notch_sample_rate` are declared only in AC_AttitudeControl_Multi.h; their definitions are not part of this model. `RunMixIsLastValue` therefore speaks about the setters modelled here only.
- `rate_controller_run_dt`, `rate_controller_run`, `rate_controller_target_reset`: declared only, and their subject is floating-point PID numerics inside `AC_PID`, which is not part of this model. Only the default initialisers of the three PIDs are modelled.
- The PID accessors (`get_rate_roll_pid` and the others) return references to the PID objects; `AC_PID` itself is not part of this model.
- The default-gain macros can be overridden at build time; the model uses the values the header falls back to.
- Parameter registration (`var_info`), the motor output object and the attitude provider are external plumbing.
- HalDevice.Device.constructor: the C++ constructor writes only the bus-type field; the model fills the other three with zero but promises nothing about them.
- `get_bus_id`, `make_bus_id`, `change_bus_id`, `get_bus_id_devtype` and the `devid_get_*` functions: the packed 32-bit layout of the union is compiler-defined and most of these are declared only in Device.h, so the model stays at the level of the four fields.
- `set_device_type` is declared only in Device.h (line 97), so there is no setter for the device-type field.
- Bus I/O (`transfer`, `transfer_fullduplex`, `read`, `read_registers`, `write_register`, the bank variants), `set_speed`, `set_address`, `set_cmd_header`, execute-in-place mode, chip select, retries and the read flag: I/O plumbing, pure virtual or defined elsewhere.
- Periodic and completion callbacks, bank-select and register read/write callbacks, and `get_semaphore`: per-bus threading and concurrency.
- The checked-register machinery (`setup_checked_registers`, `set_checked_register`, `check_next_register` and its ring of registers): declared only in Device.h.
