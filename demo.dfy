/** The demonstration at the end of expanded.rs: a struct holding one `i32`
    cell of each example group (and one of the hand-declared `OtherMarker`),
    and a method that opens two of them through owners obtained from the
    struct itself. */
module Demo {
  import opened Kinds
  import GroupApi
  import ScopeAccess

  /** Rust's `i32`. */
  type I32 = x: int | -0x8000_0000 <= x < 0x8000_0000

  const I32Max: I32 := 0x7fff_ffff

  /** How the demonstration ends: normally, with a failed `assert_eq!`
      (left and right operands), or with the debug-build overflow panic of
      `+= 1`. */
  datatype Outcome = Completed | AssertEqFailed(left: int, right: int) | Overflow

  /** One `T[L]Cell<Marker, i32>`. Its contents change in place through
      `rw`; its Marker never changes. */
  class I32Cell {
    const marker: GroupApi.MarkerTy
    var value: I32

    constructor (marker: GroupApi.MarkerTy, v: I32)
      ensures this.marker == marker && value == v
    {
      this.marker := marker;
      value := v;
    }

    /** The cell as the group API sees it at this moment. */
    function Snapshot(): GroupApi.Cell<int>
      reads this
    {
      GroupApi.Cell(marker, value)
    }

    /** `*cell.ro(owner)`: only an owner of this cell's Marker may read. */
    function Ro(o: GroupApi.Owner): (r: I32)
      reads this
      requires GroupApi.Opens(o, Snapshot())
      ensures r == Snapshot().value
    {
      value
    }

    /** `*cell.rw(owner) += 1`, with the overflow check of a debug build. */
    method Increment(o: GroupApi.Owner) returns (overflow: bool)
      requires GroupApi.Opens(o, Snapshot())
      modifies this
      ensures overflow <==> old(value) == I32Max
      ensures value == if overflow then old(value) else old(value) + 1
    {
      if value == I32Max {
        overflow := true;
      } else {
        overflow := false;
        value := value + 1;
      }
    }
  }

  function ExampleMarker(g: GroupApi.Group, l: Level): GroupApi.MarkerTy {
    GroupApi.MarkerTy(g.name, g.impl, l)
  }

  /** `ExampleStruct`: six cells, each of its own Marker. */
  class ExampleStruct {
    const uni: I32Cell
    const accPub: I32Cell
    const accPvt: I32Cell
    const pubCell: I32Cell
    const pvt: I32Cell
    const other: I32Cell

    /** Each field holds a cell of the declared type. The Markers differ, so
        the six fields are six separate cells. */
    predicate Valid() {
      && uni.marker == ExampleMarker(GroupApi.ExampleUni, UniformLevel)
      && accPub.marker == ExampleMarker(GroupApi.ExampleAcc, PublicLevel)
      && accPvt.marker == ExampleMarker(GroupApi.ExampleAcc, PrivateLevel)
      && pubCell.marker == ExampleMarker(GroupApi.ExamplePub, PublicLevel)
      && pvt.marker == ExampleMarker(GroupApi.ExamplePvt, PrivateLevel)
      && other.marker == GroupApi.OtherMarker
    }

    /** `ExampleStruct::new()`: every cell starts at 0. */
    constructor ()
      ensures Valid()
      ensures fresh(uni) && fresh(accPub) && fresh(accPvt) && fresh(pubCell) && fresh(pvt) && fresh(other)
      ensures uni.value == 0 && accPub.value == 0 && accPvt.value == 0
      ensures pubCell.value == 0 && pvt.value == 0 && other.value == 0
    {
      uni := new I32Cell(ExampleMarker(GroupApi.ExampleUni, UniformLevel), 0);
      accPub := new I32Cell(ExampleMarker(GroupApi.ExampleAcc, PublicLevel), 0);
      accPvt := new I32Cell(ExampleMarker(GroupApi.ExampleAcc, PrivateLevel), 0);
      pubCell := new I32Cell(ExampleMarker(GroupApi.ExamplePub, PublicLevel), 0);
      pvt := new I32Cell(ExampleMarker(GroupApi.ExamplePvt, PrivateLevel), 0);
      other := new I32Cell(GroupApi.OtherMarker, 0);
    }

    /** `demonstrate_context_selection`. `outer` is `outer_container` when
        the method stops. The method succeeds exactly when the uniform cell
        held 0 (so it reads 1 after the increment) and the private cell's
        low byte is 0; a failed `assert_eq!` reports the operands it
        compared. Only the uniform cell changes. */
    method DemonstrateContextSelection() returns (outcome: Outcome, outer: int)
      requires Valid()
      modifies uni
      ensures outcome == Completed <==> old(uni.value) == 0 && ScopeAccess.AsU8(pvt.value) == 0
      ensures outcome == Overflow <==> old(uni.value) == I32Max
      ensures uni.value == if old(uni.value) == I32Max then old(uni.value) else old(uni.value) + 1
      ensures outcome.AssertEqFailed? ==>
        outcome == if old(uni.value) != 0 then AssertEqFailed(old(uni.value) + 1, 1)
                   else AssertEqFailed(ScopeAccess.AsU8(pvt.value), 0)
      ensures outer == if old(uni.value) == 0 then ScopeAccess.AsU8(pvt.value) else 7
      ensures 0 <= outer < 256
    {
      // let mut outer_container: u8 = 7; assert_eq!(outer_container, 7);
      outer := 7;
      assert outer == 7;

      // c_scp!: a mutable borrow of the uniform cell, its owner from `self`
      var owner := GroupApi.GetMatchingOwnerFrom(uni.Snapshot(), GroupApi.ExampleGetters).value;
      var overflow := uni.Increment(owner);
      if overflow {
        outcome := Overflow;
        return;
      }
      if uni.Ro(owner) != 1 {
        outcome := AssertEqFailed(uni.Ro(owner), 1);
        return;
      }

      // c_scp!: an external dereference of the private cell, cast to u8
      // after the dereference
      var pvtOwner := GroupApi.GetMatchingOwnerFrom(pvt.Snapshot(), GroupApi.ExampleGetters).value;
      outer := ScopeAccess.AsU8(pvt.Ro(pvtOwner));
      if outer != 0 {
        outcome := AssertEqFailed(outer, 0);
        return;
      }
      outcome := Completed;
    }
  }

  /** `run_demonstration`: on a freshly built struct both assertions hold. */
  method RunDemonstration() returns (outcome: Outcome)
    ensures outcome == Completed
  {
    var example := new ExampleStruct();
    var outer;
    outcome, outer := example.DemonstrateContextSelection();
  }
}
