# Chanchito piggy bank: gesture detector and goal-lookup logic in Dafny

This project models the decision logic of the "Chanchito" Raspberry Pi piggy bank.

- `mpu_test.dfy` (module `MpuTest`) covers the MPU6050 polling script.
  - `ReadRawData` turns a high/low register byte pair into a signed value.
  - The class `ShakeDetector` is the "double shake" recogniser. It has three
    phases: a first peak above `UmbralAlto` (250), then a fall below
    `UmbralBajo` (30), then a second peak above `UmbralAlto`, which fires the
    action. All of this must happen within `TiempoMaximo` (3 s) of the first peak.
  - The class keeps the loop's two variables, `estado` and
    `tiempoInicioSecuencia`. `Step` handles one sample and `Poll` handles a run
    of samples. Both are proved against the transition function `Next` and its
    trace `Trace`, and the properties are proved as lemmas about those.
- `voice_test.dfy` (module `VoiceTest`) covers two parts of the voice assistant.
  - The "send money to a goal" tool: the search loop (`BuscarMeta`), the
    not-found reply (`CuentasDisponibles`) and the decision to request a
    transaction (`EnviarDineroAMeta`).
  - The realtime deposit handler (`ProcesarCambioRealtime`). It returns the
    status codes sent to the display and the phrase spoken, if any, as a list
    of effects.
- `wrappers.dfy` holds `Option`, which stands for Python's `None`.

The motion magnitude and the clock reading are plain `real` inputs. The account
list and the change-event payload are parameters. Nothing calls a device or a
network service.

Two points of the detector are easy to misread. The model follows the code of
`mpu_test.py` on both, and adds one note:

- After a timeout the code does not skip the sample. It resets the phase to 0
  and judges the same sample in phase 0, so a peak re-arms at once with the
  sample's time as the new start (`TimeoutReevaluates`, `LateSecondPeakRearms`).
- The code never clears the start time on a return to phase 0. Only arming
  overwrites it (`StartOnlySetWhenArming`).
- The code has no cooldown in the detector. The source's 2 s pause happens
  outside it, in the action.

## Model

| member | source | states |
|---|---|---|
| `MpuTest.ReadRawData` | mpu_test.py:36-42 | The result is the one value congruent to `high*256 + low` modulo 65536 that lies in [-32767, 32768]. It is non-negative exactly when the register value is at most 32768. |
| `MpuTest.ReadRawDataBoundary` | mpu_test.py:40-41 | Because of the strict `>`, register value 0x8000 decodes to +32768, while the two's-complement reading gives -32768. |
| `MpuTest.ReadInt16` | mpu_test.py:39-41 | The corrected decoder gives the two's-complement reading in [-32768, 32767], congruent to the register value. It is negative exactly when the high byte's top bit is set. |
| `MpuTest.ReadRawDataAgreesOffBoundary` | mpu_test.py:40-41 | The source's decoder and the two's-complement decoder agree on every byte pair except register value 0x8000. |
| `MpuTest.Next` | mpu_test.py:130-168 | The reference transition for one sample: the timeout check resets the phase only, then the phase chain runs on the same sample. Its properties are the one-sample lemmas below. |
| `MpuTest.Trace` | mpu_test.py:119-171 | The states of a run: one more state than samples, starting from the given state. `TraceSteps` relates consecutive states by `Next`. |
| `MpuTest.ShakeDetector.constructor` | mpu_test.py:113-114 | The detector starts in phase 0 with start time 0. |
| `MpuTest.ShakeDetector.Step` | mpu_test.py:130-168 | One loop iteration. The new phase, the new start time and whether the action fired are those given by `Next`, and the phase stays in 0..2. |
| `MpuTest.ShakeDetector.Poll` | mpu_test.py:119-171 | The polling loop over a run of samples. The final state is the last state of `Trace`, and the flag for each sample says whether that sample fired. |
| `MpuTest.NextStaysInRange` | mpu_test.py:113-168 | From phase 0, 1 or 2, one sample leads to phase 0, 1 or 2. |
| `MpuTest.ArmOnlyOnPeak` | mpu_test.py:139-143 | In phase 0, a magnitude strictly above 250 moves to phase 1 and sets the start to the sample time. Any other magnitude changes nothing. No action fires. |
| `MpuTest.FallOnlyBelowLow` | mpu_test.py:146-150 | In phase 1 within the window, the phase becomes 2 exactly when the magnitude is strictly below 30. The start time is kept, so repeated peaks do not restart the window. No action fires. |
| `MpuTest.FireIff` | mpu_test.py:153-168 | The action fires exactly when the phase is 2, the window has not run out, and the magnitude is strictly above 250. After firing the phase is 0. |
| `MpuTest.TimeoutReevaluates` | mpu_test.py:132-143 | If the phase is above 0 and `now - start > 3` (strictly), the result equals judging the same sample in phase 0. Nothing fires, and a peak re-arms with the new start `now`. |
| `MpuTest.NoCrossingUnchanged` | mpu_test.py:139-154 | Within the window, a sample that crosses no threshold relevant to the current phase leaves the phase and the start time unchanged and does not fire. |
| `MpuTest.StartOnlySetWhenArming` | mpu_test.py:132-143 | The start time changes only when phase 1 is entered, and then to the sample time. Entering phase 1 from another phase, or after a timeout, needs a strict peak. |
| `MpuTest.EnterPhaseTwoOnlyOnFall` | mpu_test.py:146-150 | Phase 2 is entered only from phase 1, within the window, on a magnitude strictly below 30. |
| `MpuTest.TraceSteps` | mpu_test.py:119-171 | Consecutive states of a run are related by one loop iteration. |
| `MpuTest.TraceInRange` | mpu_test.py:113-168 | A run started in phase 0, 1 or 2 stays in those phases. |
| `MpuTest.QuietSignalStaysIdle` | mpu_test.py:139-143 | A run from phase 0 whose magnitudes never exceed 250 (for example, constantly between the thresholds) stays in its initial state and never fires. |
| `MpuTest.NoDoubleFire` | mpu_test.py:113-168 | Right after a firing the run is in phase 0. Before any later firing there is a first peak that enters phase 1 from another phase with a fresh start time, and after it a strict fall that enters phase 2 from phase 1. Both lie strictly between the two firing samples, so one peak never fires twice. |
| `MpuTest.DoubleShakeFiresOnce` | mpu_test.py:130-168 | Peak, fall, peak at 0, 0.5 and 1.0 s fires exactly once, on the last sample, and ends in phase 0. |
| `MpuTest.LateSecondPeakRearms` | mpu_test.py:132-143 | A second peak at 3.5 s does not fire. It ends the old sequence and starts a new one stamped 3.5 s. |
| `MpuTest.RepeatedPeakKeepsWindow` | mpu_test.py:146-150 | A repeated peak before the fall keeps the first start time, and the sequence fires once, on its last sample. |
| `VoiceTest.FirstMatch` | voice_test.py:248-259 | It returns the position of the first account, in list order, whose description is non-empty and contains the goal name ignoring case. None means no account matches. |
| `VoiceTest.BuscarMeta` | voice_test.py:244-259 | The search loop stops at the first match and takes that account's id (possibly missing) and its description. With no match it returns no id and an empty name. |
| `VoiceTest.CuentasDisponibles` | voice_test.py:268 | Every listed description is non-empty and belongs to some account. Every account with a non-empty description is listed. |
| `VoiceTest.CuentasDisponiblesAppend` | voice_test.py:268 | The list keeps the order of the accounts: the list for `a + b` is the list for `a` followed by the list for `b`. |
| `VoiceTest.EnviarDineroAMeta` | voice_test.py:238-279 | A transaction is requested exactly when the first match has a truthy id. A falsy id gives "not found" even if later accounts match. The request goes from the main account to that id, with description "Ahorro enviado a " + the matched description. Otherwise the reply is the `meta_no_encontrada` payload listing `CuentasDisponibles`. A response without `mis_cuentas` always gives "not found" with an empty list. |
| `VoiceTest.UndescribedNeverChosen` | voice_test.py:252-253 | The chosen account always has a non-empty description. |
| `VoiceTest.EmptyNameMatchesFirstDescribed` | voice_test.py:253-256 | An empty goal name picks the first account that has a non-empty description. |
| `VoiceTest.FirstMatchIgnoresCase` | voice_test.py:256 | Goal names with the same lower-case form pick the same account. |
| `VoiceTest.NotFoundListsNoMatch` | voice_test.py:262-269 | When nothing matches, no description offered in the not-found reply contains the goal name. |
| `VoiceTest.ProcesarCambioRealtime` | voice_test.py:78-127 | Status 3 comes first and status 1 comes last on every path. A phrase is spoken, between them, exactly when `data.record` is a non-empty record whose `str(cuenta_destino_id)` is the main account id. A missing or empty `data`/`record` is ignored. |
| `VoiceTest.MissingDestinationNotAnnounced` | voice_test.py:104-113 | A record without `cuenta_destino_id` reads as "None" and is not announced. |

## Findings

| source | as written | input that shows it | evidently intended | confidence | as-written member | corrected member |
|---|---|---|---|---|---|---|
| mpu_test.py:40 | `if val > 32768` | high = 0x80, low = 0x00 decodes to +32768 | `val >= 32768`, the sensor's two's-complement reading, -32768 | medium; not executed. The magnitude squares each axis, so the detector's input is the same either way | `MpuTest.ReadRawDataBoundary` | `MpuTest.ReadInt16` |

Neither decoder feeds the rest of the model, because the detector takes the magnitude as an input.

## Left out

- I2C access (`init_mpu`, `bus.read_byte_data`): device I/O. Only the combination of the two bytes is modelled.
- Gyro scaling by 131, the square-root magnitude, `time.time()` and `time.sleep`: floating-point numerics and clock access. Magnitude and time are exact `real` inputs, so NaN does not arise.
- The action run when the detector fires: serial codes 3 and 1, the last-transaction query, the GPT phrasing, speech and the 2 s pause. `Step` only reports that it fired. `Poll` consumes exactly the samples it is given, so samples not taken during the pause are simply absent from its input.
- `str.lower()` covers ASCII letters only. Python's full Unicode case mapping is not modelled.
- `EnviarDineroAMeta` does not model the uncaught exceptions of malformed account replies. The reply is assumed to be a JSON object, and each `mis_cuentas` entry an object. A 200 reply that is not an object makes `datos.get` raise AttributeError (voice_test.py:175, 242). An entry that is not an object makes `cuenta.get` raise (voice_test.py:250). Neither the tool, nor `main`, nor the top level (which catches only KeyboardInterrupt) handles these, so the program stops. `mis_cuentas` present but null or not a list, and descriptions or ids that are not strings, likewise raise or compare differently. Ids and descriptions are modelled as optional strings, and "falsy" means missing or empty.
- The backend's reply to the transaction and the `json.dumps` of the results: foreign service and serialisation. The tool returns the request or the not-found payload as a value.
- The payload normalisation through `model_dump` / `__dict__`. The payload is modelled as already a dictionary.
- The `monto` value is taken as its Python `str` rendering. The `descripcion` that the realtime handler reads is never used, so it is not modelled.
- The realtime subscription thread, the asyncio loop, audio capture and playback, GPIO button polling, OpenAI calls and HTTP wrappers: concurrency, device I/O and foreign services.
- main.py, button_test.py, serial_test.py, edge_functions/chat_bot_v1.ts, edge_functions/chat_bot_v2.ts and openai_samples/audio-output.js are not part of this model. They are I/O glue around the same services.
