# Work offsets (G53, G54–G59, G10 L2) — a Dafny model

This project models `WorkOffsetsSupport`, the coordinate-system work-offset
manager of the Klipper host (`klippy/extras/work_offsets.py`). The object keeps
the active coordinate system (0 = machine space, 1..6 = G54..G59), a table of
six four-axis offsets that is written to an offsets file on every change, and
it drives the motion layer's additive offset through `gcode_move.set_offset`,
always removing the old offset before applying the new one.

The model has three layers:

- `Geometry` (geometry.dfy): the four-axis `Position`, with addition, negation
  (`offset * -1`) and the sum of a sequence of deltas. Axes are exact reals.
- `OffsetSpec` (offset_spec.dfy): the controller as pure transitions. A
  `Machine` holds the active index, the table and the file contents; each
  command (G53, G54..G59, G10, WORK_OFFSETS) yields the next `Machine` and the
  ordered list of `set_offset` deltas it issues. The lemmas prove the safety
  property: after any command sequence from start-up, the deltas sent to the
  motion layer add up to exactly the active slot's offset, or to zero in
  machine space.
- `WorkOffsets` (work_offsets.dfy): the class `WorkOffsetsSupport` itself, with
  the source's fields and one method per handler, each proved against the
  transition it implements. The motion layer is the field `applied` plus a
  ghost log `calls` of every delta handed to `set_offset`. The offsets file is
  the field `persisted`, which is `None` when no file exists. The class
  invariant `Valid()` says the motion layer's offset equals the active slot's
  offset, the table holds exactly slots 1..6, and the file equals the table.

Some behaviours of the code are easy to misread:
- G53 from a work system, and G54..G59 from machine space, each make exactly one
  `set_offset` call. G53 from machine space makes none.
- The listing walks the table in the dict's insertion order. That order is
  ascending for any table this code created.
- The L check is written `not L or L != 2`. This accepts exactly L = 2.

## Model

| member | source | states |
|---|---|---|
| `OffsetSpec.SlotOf` | klippy/extras/work_offsets.py:12-13 | looking up a command name in the enumeration succeeds exactly for G54..G59 and yields a value in 1..6 whose name is that command |
| `OffsetSpec.SlotName` | klippy/extras/work_offsets.py:12-13 | enumeration member k is named "G" followed by the number 53 + k, so slots 1..6 are G54..G59 |
| `OffsetSpec.SlotNameRoundTrip` | klippy/extras/work_offsets.py:12-13 | the enumeration numbers G54..G59 from 1, and a slot's name looks up to that same slot |
| `OffsetSpec.ZeroTable` | klippy/extras/work_offsets.py:45-46 | the bootstrap table has exactly the keys 1..6, each mapped to the zero position |
| `OffsetSpec.Boot` | klippy/extras/work_offsets.py:26-47 | at start-up the index is machine space and the motion layer carries nothing. The table is the file's contents when the file exists. Otherwise the table is all zeros over keys 1..6 and is persisted immediately |
| `OffsetSpec.Suspend` | klippy/extras/work_offsets.py:54-58 | G53 always ends in machine space and never changes the table or the file. It makes no motion call from machine space and exactly one otherwise |
| `OffsetSpec.SuspendNetDelta` | klippy/extras/work_offsets.py:55-58 | the delta G53 sends takes the motion layer from the active offset to zero |
| `OffsetSpec.SuspendIdempotent` | klippy/extras/work_offsets.py:54-58 | running G53 twice gives the same final state and the same motion calls as running it once |
| `OffsetSpec.Select` | klippy/extras/work_offsets.py:95-102 | G54..G59 make the slot active from any state and leave the table and the file unchanged. They make one motion call from machine space and two otherwise, and the last call applies the selected slot's offset |
| `OffsetSpec.SelectNetDelta` | klippy/extras/work_offsets.py:98-102 | after G54..G59 the motion layer carries exactly the selected slot's offset, whatever was active before |
| `OffsetSpec.Requested` | klippy/extras/work_offsets.py:81 | G10 takes each supplied axis value as given, and an axis that is not supplied is 0 |
| `OffsetSpec.Redefine` | klippy/extras/work_offsets.py:69-93 | G10 fails exactly when L is not 2, when P is missing or outside 0..6, or when P is 0 in machine space, and it reports the first failed check. On success the index is unchanged and only the target slot (P, or the active slot for P = 0) is rewritten. That slot is never 0 and the file equals the new table. When the target is the active slot the calls are "remove old, apply new"; otherwise there is no motion call |
| `OffsetSpec.ErrorMessagesDistinct` | klippy/extras/work_offsets.py:73-79 | the three messages G10 raises ("L2 much be specified", "P0-6 must be specified", "Offsets in machine space are not supported") are pairwise different, so each failed check is reported recognisably |
| `OffsetSpec.RedefineNetDelta` | klippy/extras/work_offsets.py:83-92 | after a successful G10 the motion layer carries the active slot's offset, which is the new value when the active slot was redefined |
| `OffsetSpec.RedefineThenSelect` | klippy/extras/work_offsets.py:84-102 | a G10 on an inactive slot succeeds without motion calls, and selecting that slot afterwards puts the new value into effect |
| `OffsetSpec.Step` | klippy/extras/work_offsets.py:54-104 | every command keeps the invariant: keys 1..6, file equal to the table, index in 0..6. A command's deltas move the motion layer from the old active offset to the new one. A failed G10 and the listing change nothing |
| `OffsetSpec.Run` | klippy/extras/work_offsets.py:54-104 | the invariant holds after any sequence of registered commands |
| `OffsetSpec.RunNetDelta` | klippy/extras/work_offsets.py:54-102 | over any command sequence, the deltas sent add up to the change in the active offset |
| `OffsetSpec.AtMostOneActiveOffset` | klippy/extras/work_offsets.py:26-102 | after any command sequence from start-up, the sum of all `set_offset` deltas equals the active slot's offset, or zero in machine space |
| `OffsetSpec.FreshStartScenario` | klippy/extras/work_offsets.py:40-102 | from a fresh start, `G10 L2 P2 X<x> Y<y>`, then `G55`, then `G53` leave slot 2 at (x, y, 0, 0) and the others at zero. The index ends in machine space, and the motion calls are exactly "apply (x, y, 0, 0)" then "remove it" |
| `WorkOffsets.WorkOffsetsSupport.constructor` | klippy/extras/work_offsets.py:22-38 | the new object starts in machine space with no motion calls. Its state is the start-up state of `Boot`, and it satisfies the class invariant |
| `WorkOffsets.WorkOffsetsSupport.LoadWorkOffsets` | klippy/extras/work_offsets.py:40-47 | the table is taken from an existing file. Without a file it becomes the zero table, which is then written out |
| `WorkOffsets.WorkOffsetsSupport.StoreWorkOffsets` | klippy/extras/work_offsets.py:49-52 | the file afterwards holds exactly the current table |
| `WorkOffsets.WorkOffsetsSupport.SetOffset` | klippy/extras/work_offsets.py:57 | the motion layer's offset grows by the delta, and the delta is appended to the call log |
| `WorkOffsets.WorkOffsetsSupport.CmdG53` | klippy/extras/work_offsets.py:54-58 | the handler keeps the class invariant and reaches the state and calls of `Suspend` |
| `WorkOffsets.WorkOffsetsSupport.CmdSetWorkOffset` | klippy/extras/work_offsets.py:95-102 | for a registered command name, the handler keeps the class invariant and reaches the state and calls of `Select` for that name's slot |
| `WorkOffsets.WorkOffsetsSupport.CmdG10` | klippy/extras/work_offsets.py:69-93 | on failure it returns the source's message for the first failed check, and it changes nothing: index, table, file, motion offset and call log all stay as they were. On success it keeps the class invariant and reaches the state and calls of `Redefine` |
| `WorkOffsets.WorkOffsetsSupport.CmdShowWorkOffsets` | klippy/extras/work_offsets.py:60-67 | the listing has one entry per slot with that slot's name and offset. The "*" marker is on exactly the active slot, and on no slot in machine space |

## Left out

- Pickle I/O, the file path built from the config file location, and `os.path.exists` are not modelled. The file is the `persisted` field, and `None` stands for "no file".
- A loaded file must hold exactly the keys 1..6 (a precondition of `Boot` and of the constructor). A file with other keys would make the source fail later with a lookup error, and that failure is not modelled.
- Write failures of `store_work_offsets` are not modelled. In the source they would raise after G10 has already changed the table.
- Command registration and `gcmd` plumbing are not modelled. This includes parse errors for a malformed number and the `respond_info` acknowledgement text. Parameters are method arguments, and a select command is identified by its name.
- WorkOffsets.WorkOffsetsSupport.CmdShowWorkOffsets: gives entries in ascending slot order, not the text lines. The source walks the dict in insertion order, and its `{:03.3f}` formatting is not modelled. Insertion order is ascending for a bootstrapped table and for every table this code writes, but not necessarily for a hand-made file.
- Floating point is not modelled: axes are exact reals. Rounding in the motion layer's accumulated float offset is not captured.
- The internals of `gcode_move.set_offset` and of `Position` are not part of this model. `set_offset` is taken to add its argument to the current offset. `applied` is only the part of the motion layer's offset that this object contributes; other commands that move it are not modelled.
- klippy/extras/probe_target.py (an unfinished probing stub) and klippy/extras/grbl.py (configuration wiring that decides whether to construct this object) are not part of this model.
