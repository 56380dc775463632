/** Moving blocks together with the builderbot that holds them: when the user
    drags a builderbot, and when the user turns the mouse wheel with Ctrl held
    while a builderbot is selected.

    Blocks are given by their origin positions, in the order in which the space
    lists the entities of type "block" (by id). The moves themselves are
    requests to the physics engine; the model says which block is moved and,
    for a drag, where to. */
module BlockManipulation {
  import opened Base

  /** Side of a block: a held block's origin sits this far below the end effector. */
  const BLOCK_SIDE_LENGTH: real := 0.055
  /** A block counts as held when its origin is closer than this to where a held
      block would be. */
  const PICK_TOLERANCE: real := 0.005
  /** A dragged block is lowered by this much to make up for physics inaccuracy. */
  const DROP_COMPENSATION: real := 0.0005

  /** The entity an event concerns: a builderbot with the position of its
      end-effector anchor, or an entity of some other type. */
  datatype Entity = BuilderBot(endEffector: Vec3) | OtherEntity

  predicate Near(p: Vec3, q: Vec3) {
    SquaredDistance(p, q) < PICK_TOLERANCE * PICK_TOLERANCE
  }

  /** Where a block held by an end effector at `endEffector` has its origin. */
  function HeldBlockPosition(endEffector: Vec3): Vec3 {
    endEffector.Minus(Up(BLOCK_SIDE_LENGTH))
  }

  /** The index of the first block, from `i` on, near `target`. */
  function FirstBlockNear(blocks: seq<Vec3>, target: Vec3, i: nat): Option<nat>
    requires i <= |blocks|
    decreases |blocks| - i
  {
    if i == |blocks| then None
    else if Near(target, blocks[i]) then Some(i)
    else FirstBlockNear(blocks, target, i + 1)
  }

  /** The search returns the first block near the target, and none only when no
      block is near it. */
  lemma {:induction false} FirstBlockNearIsFirst(blocks: seq<Vec3>, target: Vec3, i: nat)
    requires i <= |blocks|
    ensures var k := FirstBlockNear(blocks, target, i);
      && (k.Some? ==> i <= k.value < |blocks| && Near(target, blocks[k.value]))
      && (k.Some? ==> forall j :: i <= j < k.value ==> !Near(target, blocks[j]))
      && (k.None? <==> forall j :: i <= j < |blocks| ==> !Near(target, blocks[j]))
    decreases |blocks| - i
  {
    if i < |blocks| && !Near(target, blocks[i]) {
      FirstBlockNearIsFirst(blocks, target, i + 1);
    }
  }

  /** The parts of a Qt event the filter looks at. */
  datatype Event = Event(isWheel: bool, ctrlHeld: bool)

  /** `PassOn`: the event goes to the default handler. `RotateBlock`: the event
      is consumed and the selected builderbot and the block it holds are turned. */
  datatype FilterResult = PassOn | RotateBlock(block: nat)

  /** The mouse-wheel event filter. */
  function WheelFilter(ev: Event, selected: Option<Entity>, blocks: seq<Vec3>): (r: FilterResult)
    ensures r.RotateBlock? ==> ev.isWheel && ev.ctrlHeld && selected.Some? && selected.value.BuilderBot?
    ensures ev.isWheel && ev.ctrlHeld && selected.Some? && selected.value.BuilderBot? ==>
      var target := HeldBlockPosition(selected.value.endEffector);
      && (r.RotateBlock? <==> exists j :: 0 <= j < |blocks| && Near(target, blocks[j]))
      && (r.RotateBlock? ==> r.block < |blocks| && Near(target, blocks[r.block]))
      && (r.RotateBlock? ==> forall j :: 0 <= j < r.block ==> !Near(target, blocks[j]))
  {
    if !ev.isWheel then PassOn
    else if !ev.ctrlHeld then PassOn
    else if selected.None? then PassOn
    else if !selected.value.BuilderBot? then PassOn
    else
      var target := HeldBlockPosition(selected.value.endEffector);
      FirstBlockNearIsFirst(blocks, target, 0);
      match FirstBlockNear(blocks, target, 0)
      case Some(k) => RotateBlock(k)
      case None => PassOn
  }

  /** A block to move, and where to. */
  datatype BlockMove = BlockMove(block: nat, to: Vec3)

  /** `EntityMoved`: when a builderbot is dragged from `oldPos` to `newPos`, the
      block that was held by its end effector (which has already moved) is moved
      by the same displacement, lowered slightly. Other entities move nothing. */
  function EntityMoved(entity: Entity, oldPos: Vec3, newPos: Vec3, blocks: seq<Vec3>): (r: Option<BlockMove>)
    ensures entity.OtherEntity? ==> r == None
    ensures entity.BuilderBot? ==>
      var delta := newPos.Minus(oldPos);
      var target := HeldBlockPosition(entity.endEffector.Minus(delta));
      && (r.Some? <==> exists j :: 0 <= j < |blocks| && Near(target, blocks[j]))
      && (r.Some? ==> r.value.block < |blocks| && Near(target, blocks[r.value.block]))
      && (r.Some? ==> forall j :: 0 <= j < r.value.block ==> !Near(target, blocks[j]))
      && (r.Some? ==> r.value.to.Minus(blocks[r.value.block]) == delta.Minus(Up(DROP_COMPENSATION)))
  {
    match entity
    case OtherEntity => None
    case BuilderBot(endEffector) =>
      var delta := newPos.Minus(oldPos);
      var target := HeldBlockPosition(endEffector.Minus(delta));
      FirstBlockNearIsFirst(blocks, target, 0);
      match FirstBlockNear(blocks, target, 0)
      case Some(k) => Some(BlockMove(k, blocks[k].Plus(delta).Minus(Up(DROP_COMPENSATION))))
      case None => None
  }
}
