/**
 * `WorkOffsetsSupport`: the object that owns the active coordinate system and
 * the offset table, and drives the motion layer's additive offset.
 *
 * The motion layer (`gcode_move`) is represented by two fields of the object:
 * `applied`, the net offset this object has handed to `set_offset`, and the
 * ghost log `calls` of every delta handed over, in order. The offsets file is
 * the field `persisted` (None when the file does not exist).
 */
module WorkOffsets {
  import opened Wrappers
  import opened Geometry
  import opened OffsetSpec

  /** One line of the `WORK_OFFSETS` listing: system name, offset, active marker. */
  datatype ListEntry = ListEntry(name: string, offset: Position, active: bool)

  class WorkOffsetsSupport {
    var workOffsetIdx: int
    var workOffsets: map<int, Position>
    var persisted: Option<map<int, Position>>
    var applied: Position
    ghost var calls: seq<Position>

    /** The controller state the transition functions speak about. */
    function State(): Machine
      reads this
    {
      Machine(workOffsetIdx, workOffsets, persisted)
    }

    /**
     * The object invariant: the state is well formed and the motion layer's
     * offset is exactly the active slot's offset (zero in machine space).
     */
    ghost predicate Valid()
      reads this
    {
      OffsetSpec.Valid(State()) && applied == Active(State())
    }

    /** Start-up: machine space, then the table is loaded (or created and written). */
    constructor (file: Option<map<int, Position>>)
      requires file.Some? ==> file.value.Keys == SlotSet()
      ensures Valid() && State() == Boot(file)
      ensures applied == Origin && calls == []
    {
      workOffsetIdx := MachineSpace;
      workOffsets := map[];
      persisted := file;
      applied := Origin;
      calls := [];
      new;
      LoadWorkOffsets();
    }

    /** Read the offsets file, or build the zero table and write it when there is none. */
    method LoadWorkOffsets()
      requires persisted.Some? ==> persisted.value.Keys == SlotSet()
      modifies this`workOffsets, this`persisted
      ensures old(persisted).Some? ==> workOffsets == old(persisted).value
      ensures old(persisted).None? ==> workOffsets == ZeroTable()
      ensures persisted == Some(workOffsets)
    {
      if persisted.Some? {
        workOffsets := persisted.value;
      } else {
        workOffsets := ZeroTable();
        StoreWorkOffsets();
      }
    }

    /** Write the whole table to the offsets file. */
    method StoreWorkOffsets()
      modifies this`persisted
      ensures persisted == Some(workOffsets)
    {
      persisted := Some(workOffsets);
    }

    /** `gcode_move.set_offset(delta)`: add `delta` to the motion layer's offset. */
    method SetOffset(delta: Position)
      modifies this`applied, this`calls
      ensures applied == Add(old(applied), delta)
      ensures calls == old(calls) + [delta]
    {
      applied := Add(applied, delta);
      calls := calls + [delta];
    }

    /** G53: suspend to machine space. */
    method CmdG53()
      requires Valid()
      modifies this
      ensures Valid()
      ensures State() == Suspend(old(State())).next
      ensures calls == old(calls) + Suspend(old(State())).calls
    {
      ghost var before := State();
      if workOffsetIdx != 0 {
        var oldOffset := workOffsets[workOffsetIdx];
        SetOffset(Neg(oldOffset));
        workOffsetIdx := 0;
        assert applied == Origin;
      }
      assert State() == Suspend(before).next;
    }

    /** G54..G59: select the coordinate system the command names. */
    method CmdSetWorkOffset(command: string)
      requires Valid() && command in CommandNames
      modifies this
      ensures Valid()
      ensures State() == Select(old(State()), SlotOf(command).value).next
      ensures calls == old(calls) + Select(old(State()), SlotOf(command).value).calls
    {
      var newOffsetIdx := SlotOf(command).value;
      ghost var before := calls;
      if workOffsetIdx != 0 {
        var oldOffset := workOffsets[workOffsetIdx];
        SetOffset(Neg(oldOffset));
      }
      workOffsetIdx := newOffsetIdx;
      SetOffset(workOffsets[workOffsetIdx]);
      assert calls == before + Select(old(State()), newOffsetIdx).calls;
    }

    /** G10 L2 P<0..6> [X Y Z E]: redefine an offset, or raise the message saying why not. */
    method CmdG10(args: G10Args) returns (err: Option<string>)
      requires Valid()
      modifies this
      ensures Valid()
      ensures Redefine(old(State()), args).Failure? ==>
                err == Some(ErrorMessage(Redefine(old(State()), args).error))
                && State() == old(State()) && applied == old(applied) && calls == old(calls)
      ensures Redefine(old(State()), args).Success? ==>
                err == None
                && State() == Redefine(old(State()), args).value.next
                && calls == old(calls) + Redefine(old(State()), args).value.calls
    {
      var asL := args.l;
      if asL.None? || asL.value == 0 || asL.value != 2 {
        return Some(ErrorMessage(LNotTwo));
      }
      var asP := args.p;
      if asP.None? || !(0 <= asP.value <= 6) {
        return Some(ErrorMessage(PNotInRange));
      }
      if asP.value == 0 && workOffsetIdx == 0 {
        return Some(ErrorMessage(MachineSpaceOffset));
      }
      var asOffset := Requested(args);
      ghost var before := calls;
      if asP.value == workOffsetIdx || asP.value == 0 {
        var oldOffset := workOffsets[workOffsetIdx];
        SetOffset(Neg(oldOffset));
        SetOffset(asOffset);
      }
      if 0 < asP.value <= 6 {
        workOffsets := workOffsets[asP.value := asOffset];
      } else {
        workOffsets := workOffsets[workOffsetIdx := asOffset];
      }
      StoreWorkOffsets();
      assert calls == before + Redefine(old(State()), args).value.calls;
      return None;
    }

    /**
     * WORK_OFFSETS: one entry per coordinate system in enumeration order, with
     * the marker on exactly the active one and on none in machine space.
     */
    method CmdShowWorkOffsets() returns (lines: seq<ListEntry>)
      requires Valid()
      ensures |lines| == |CommandNames|
      ensures forall i :: 0 <= i < |lines| ==>
                lines[i].name == SlotName(i + 1) && lines[i].offset == workOffsets[i + 1]
      ensures forall i :: 0 <= i < |lines| ==> (lines[i].active <==> i + 1 == workOffsetIdx)
      ensures workOffsetIdx == MachineSpace ==> forall i :: 0 <= i < |lines| ==> !lines[i].active
      ensures workOffsetIdx != MachineSpace ==> lines[workOffsetIdx - 1].active
    {
      lines := [];
      var k := 1;
      while k <= |CommandNames|
        invariant 1 <= k <= |CommandNames| + 1
        invariant |lines| == k - 1
        invariant forall i :: 0 <= i < |lines| ==>
                    lines[i].name == SlotName(i + 1) && lines[i].offset == workOffsets[i + 1]
        invariant forall i :: 0 <= i < |lines| ==> (lines[i].active <==> i + 1 == workOffsetIdx)
      {
        var p := workOffsets[k];
        lines := lines + [ListEntry(SlotName(k), p, k == workOffsetIdx)];
        k := k + 1;
      }
    }
  }
}

