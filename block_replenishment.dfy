/** The block-foraging loop functions: the arena and construction-site geometry
    read at `Init`, and the `PreStep` rule that tops the foraging area up with
    new blocks.

    Entities are named by id. Where the simulator is consulted the model takes
    what it would answer as an argument: `origin` gives each entity's origin
    anchor position at this step, `candidates` are the positions the random
    number generator draws, in order, and `collides` says whether a block
    created at a position would collide with something. */
module BlockReplenishment {
  import opened Base

  type EntityId = string

  /** Half the arena's width that `Init` keeps free of new blocks on each side. */
  const ARENA_MARGIN: real := 0.1
  /** New blocks are placed no closer than this to a robot's origin. */
  const ROBOT_CLEARANCE: real := 0.25
  /** The height at which a new block is created. */
  const SPAWN_HEIGHT: real := 0.25

  /** `CRange<Real>`. */
  datatype Range = Range(min: real, max: real) {
    /** The values `Uniform` draws from the range: from `min` up to, but not
        including, `max`. */
    predicate Contains(v: real) {
      min <= v < max
    }
  }

  /** The construction site, an open box in the XY plane. */
  datatype ConstructionSite = ConstructionSite(minCorner: Vec3, maxCorner: Vec3) {
    /** Strictly inside on both X and Y; the boundary belongs to the foraging area. */
    predicate Contains(x: real, y: real) {
      x < maxCorner.x && x > minCorner.x && y < maxCorner.y && y > minCorner.y
    }
  }

  /** A position drawn for a new block. */
  datatype Candidate = Candidate(x: real, y: real)

  /** How `Init` ends: normally, or with the exception `GetEntitiesByType`
      raises when the space holds no entity of the requested type. */
  datatype InitResult = Ok | NoBuilderBots | NoBlocks

  /** The loop functions' configuration node, already parsed. */
  datatype Config = Config(site: ConstructionSite, blocksInForagingArea: UInt32)

  /** The sampling range along one axis: the arena's extent shrunk by the margin
      at both ends. */
  function ArenaRange(center: real, size: real): (r: Range)
    ensures r.max - r.min == size - 2.0 * ARENA_MARGIN
    ensures r.min + r.max == 2.0 * center
  {
    Range(center - size * 0.5 + ARENA_MARGIN, center + size * 0.5 - ARENA_MARGIN)
  }

  /** A block on the boundary of the site is not inside it. */
  lemma BoundaryIsOutside(site: ConstructionSite, p: Vec3)
    requires p.x == site.minCorner.x || p.x == site.maxCorner.x
          || p.y == site.minCorner.y || p.y == site.maxCorner.y
    ensures !site.Contains(p.x, p.y)
  {
  }

  function CountInside(blocks: seq<EntityId>, origin: EntityId -> Vec3, site: ConstructionSite): (n: nat)
    ensures n <= |blocks|
  {
    if blocks == [] then 0
    else
      var last := origin(blocks[|blocks| - 1]);
      CountInside(blocks[..|blocks| - 1], origin, site) + (if site.Contains(last.x, last.y) then 1 else 0)
  }

  function CountForaging(blocks: seq<EntityId>, origin: EntityId -> Vec3, site: ConstructionSite): (n: nat)
    ensures n <= |blocks|
  {
    if blocks == [] then 0
    else
      var last := origin(blocks[|blocks| - 1]);
      CountForaging(blocks[..|blocks| - 1], origin, site) + (if site.Contains(last.x, last.y) then 0 else 1)
  }

  /** Every block is counted in exactly one of the two areas. */
  lemma {:induction false} CountsPartition(blocks: seq<EntityId>, origin: EntityId -> Vec3, site: ConstructionSite)
    ensures CountInside(blocks, origin, site) + CountForaging(blocks, origin, site) == |blocks|
  {
    if blocks != [] {
      CountsPartition(blocks[..|blocks| - 1], origin, site);
    }
  }

  /** The counting loop at the start of `PreStep`. */
  method CountBlocks(blocks: seq<EntityId>, origin: EntityId -> Vec3, site: ConstructionSite)
    returns (inside: nat, foraging: nat)
    ensures inside == CountInside(blocks, origin, site)
    ensures foraging == CountForaging(blocks, origin, site)
    ensures inside + foraging == |blocks|
  {
    inside, foraging := 0, 0;
    for i := 0 to |blocks|
      invariant inside == CountInside(blocks[..i], origin, site)
      invariant foraging == CountForaging(blocks[..i], origin, site)
    {
      assert blocks[..i + 1][..i] == blocks[..i];
      var p := origin(blocks[i]);
      if p.x < site.maxCorner.x && p.x > site.minCorner.x && p.y < site.maxCorner.y && p.y > site.minCorner.y {
        inside := inside + 1;
      } else {
        foraging := foraging + 1;
      }
    }
    assert blocks[..|blocks|] == blocks;
    CountsPartition(blocks, origin, site);
  }

  /** Some robot's origin is closer than the clearance to `(x, y, 0)`. */
  predicate TooCloseToRobot(robots: seq<EntityId>, origin: EntityId -> Vec3, x: real, y: real) {
    exists i :: 0 <= i < |robots| && SquaredDistance(origin(robots[i]), Vec3(x, y, 0.0)) < ROBOT_CLEARANCE * ROBOT_CLEARANCE
  }

  /** The robot loop of `PreStep`, which stops at the first robot that is too close. */
  method CheckClearance(robots: seq<EntityId>, origin: EntityId -> Vec3, x: real, y: real) returns (tooClose: bool)
    ensures tooClose == TooCloseToRobot(robots, origin, x, y)
  {
    tooClose := false;
    var i := 0;
    while i < |robots|
      invariant 0 <= i <= |robots|
      invariant forall j :: 0 <= j < i ==> SquaredDistance(origin(robots[j]), Vec3(x, y, 0.0)) >= ROBOT_CLEARANCE * ROBOT_CLEARANCE
    {
      if SquaredDistance(origin(robots[i]), Vec3(x, y, 0.0)) < ROBOT_CLEARANCE * ROBOT_CLEARANCE {
        tooClose := true;
        break;
      }
      i := i + 1;
    }
  }

  function SpawnPosition(c: Candidate): Vec3 {
    Vec3(c.x, c.y, SPAWN_HEIGHT)
  }

  /** A drawn position that the retry loop keeps: outside the construction site,
      clear of every robot, and free of collisions once the block is there. */
  predicate Acceptable(c: Candidate, site: ConstructionSite, robots: seq<EntityId>,
                       origin: EntityId -> Vec3, collides: Vec3 -> bool) {
    && !site.Contains(c.x, c.y)
    && !TooCloseToRobot(robots, origin, c.x, c.y)
    && !collides(SpawnPosition(c))
  }

  /** The index of the first acceptable candidate from `i` on. */
  function FirstAcceptable(cands: seq<Candidate>, i: nat, site: ConstructionSite, robots: seq<EntityId>,
                           origin: EntityId -> Vec3, collides: Vec3 -> bool): Option<nat>
    requires i <= |cands|
    decreases |cands| - i
  {
    if i == |cands| then None
    else if Acceptable(cands[i], site, robots, origin, collides) then Some(i)
    else FirstAcceptable(cands, i + 1, site, robots, origin, collides)
  }

  /** `FirstAcceptable` finds the first acceptable candidate, and finds none
      exactly when every candidate is rejected. */
  lemma {:induction false} FirstAcceptableIsFirst(cands: seq<Candidate>, i: nat, site: ConstructionSite, robots: seq<EntityId>,
                                                  origin: EntityId -> Vec3, collides: Vec3 -> bool)
    requires i <= |cands|
    ensures var k := FirstAcceptable(cands, i, site, robots, origin, collides);
      && (k.Some? ==> i <= k.value < |cands| && Acceptable(cands[k.value], site, robots, origin, collides))
      && (k.Some? ==> forall j :: i <= j < k.value ==> !Acceptable(cands[j], site, robots, origin, collides))
      && (k.None? <==> forall j :: i <= j < |cands| ==> !Acceptable(cands[j], site, robots, origin, collides))
    decreases |cands| - i
  {
    if i < |cands| && !Acceptable(cands[i], site, robots, origin, collides) {
      FirstAcceptableIsFirst(cands, i + 1, site, robots, origin, collides);
    }
  }

  /** The `for(;;)` retry loop of `PreStep`, run over the drawn positions; a
      rejected position leaves nothing behind. */
  method FindPlacement(cands: seq<Candidate>, site: ConstructionSite, robots: seq<EntityId>,
                       origin: EntityId -> Vec3, collides: Vec3 -> bool) returns (k: Option<nat>)
    ensures k == FirstAcceptable(cands, 0, site, robots, origin, collides)
  {
    var i := 0;
    while i < |cands|
      invariant 0 <= i <= |cands|
      invariant FirstAcceptable(cands, 0, site, robots, origin, collides) == FirstAcceptable(cands, i, site, robots, origin, collides)
    {
      var c := cands[i];
      if c.x > site.minCorner.x && c.x < site.maxCorner.x && c.y > site.minCorner.y && c.y < site.maxCorner.y {
        i := i + 1;
        continue;
      }
      var tooClose := CheckClearance(robots, origin, c.x, c.y);
      if tooClose {
        i := i + 1;
        continue;
      }
      if collides(SpawnPosition(c)) {
        i := i + 1;
        continue;
      }
      return Some(i);
    }
    return None;
  }

  /** The position `PreStep` adds a block at, if any: only when the foraging
      area holds fewer blocks than the target, and then the first drawn
      position that passes every check. */
  function Replenishment(blocks: seq<EntityId>, robots: seq<EntityId>, site: ConstructionSite, target: UInt32,
                         origin: EntityId -> Vec3, cands: seq<Candidate>, collides: Vec3 -> bool): (added: Option<Candidate>)
    ensures added.Some? ==> CountForaging(blocks, origin, site) < target
    ensures added.Some? ==> added.value in cands && Acceptable(added.value, site, robots, origin, collides)
    ensures CountForaging(blocks, origin, site) < target && added.None? ==>
      forall c :: c in cands ==> !Acceptable(c, site, robots, origin, collides)
  {
    FirstAcceptableIsFirst(cands, 0, site, robots, origin, collides);
    if CountForaging(blocks, origin, site) < target then
      match FirstAcceptable(cands, 0, site, robots, origin, collides)
      case Some(k) => Some(cands[k])
      case None => None
    else
      None
  }

  /** A single decimal digit. */
  function DigitChar(d: nat): char
    requires d < 10
  {
    ('0' as int + d) as char
  }

  /** `std::to_string` of a non-negative integer. */
  function DecimalString(n: nat): (s: string)
    ensures |s| >= 1
  {
    if n < 10 then [DigitChar(n)] else DecimalString(n / 10) + [DigitChar(n % 10)]
  }

  /** Reads back a string of decimal digits. */
  function DecimalValue(s: string): nat {
    if s == [] then 0
    else
      var d := s[|s| - 1] as int - '0' as int;
      DecimalValue(s[..|s| - 1]) * 10 + (if 0 <= d < 10 then d else 0)
  }

  lemma {:induction false} DecimalRoundTrip(n: nat)
    ensures DecimalValue(DecimalString(n)) == n
  {
    if n >= 10 {
      DecimalRoundTrip(n / 10);
      var s := DecimalString(n);
      assert s[..|s| - 1] == DecimalString(n / 10);
    }
  }

  /** The id given to the block created when the list holds `n` blocks. */
  function BlockId(n: nat): EntityId {
    "block" + DecimalString(n)
  }

  /** Blocks created at different list lengths get different ids. */
  lemma BlockIdInjective(m: nat, n: nat)
    ensures BlockId(m) == BlockId(n) ==> m == n
  {
    if BlockId(m) == BlockId(n) {
      assert BlockId(m)[5..] == DecimalString(m);
      assert BlockId(n)[5..] == DecimalString(n);
      DecimalRoundTrip(m);
      DecimalRoundTrip(n);
    }
  }

  /** `CDISRoCSLoopFunctions` in its block-foraging form. */
  class LoopFunctions {
    var arenaRangeX: Range
    var arenaRangeY: Range
    var site: ConstructionSite
    var targetBlocksInForagingArea: UInt32
    var robots: seq<EntityId>
    var blocks: seq<EntityId>

    /** The arena ranges start as [-1, 1], the site corners as default-constructed
        (zero) vectors, and the entity lists empty. The source leaves the target
        uninitialised; the model's placeholder for it carries no promise. */
    constructor ()
      ensures arenaRangeX == Range(-1.0, 1.0) && arenaRangeY == Range(-1.0, 1.0)
      ensures site == ConstructionSite(ZERO, ZERO)
      ensures robots == [] && blocks == []
    {
      arenaRangeX := Range(-1.0, 1.0);
      arenaRangeY := Range(-1.0, 1.0);
      site := ConstructionSite(ZERO, ZERO);
      targetBlocksInForagingArea := 0;
      robots := [];
      blocks := [];
    }

    /** Reads the configuration, shrinks the sampling ranges to the arena, and
        appends the builderbots and the blocks the space holds, in the order the
        space lists them. Asking the space for a type it holds no entity of
        raises an exception: with no builderbot, `Init` stops before appending
        anything, so the blocks are not appended either; with no block, after
        appending the robots. */
    method Init(config: Config, arenaSize: Vec3, arenaCenter: Vec3,
                builderbots: seq<EntityId>, spaceBlocks: seq<EntityId>) returns (result: InitResult)
      modifies this
      ensures result == (if builderbots == [] then NoBuilderBots else if spaceBlocks == [] then NoBlocks else Ok)
      ensures site == config.site && targetBlocksInForagingArea == config.blocksInForagingArea
      ensures arenaRangeX == ArenaRange(arenaCenter.x, arenaSize.x)
      ensures arenaRangeY == ArenaRange(arenaCenter.y, arenaSize.y)
      ensures robots == old(robots) + builderbots
      ensures blocks == old(blocks) + (if builderbots == [] then [] else spaceBlocks)
    {
      site := config.site;
      targetBlocksInForagingArea := config.blocksInForagingArea;
      arenaRangeX := ArenaRange(arenaCenter.x, arenaSize.x);
      arenaRangeY := ArenaRange(arenaCenter.y, arenaSize.y);
      if builderbots == [] {
        return NoBuilderBots;
      }
      ghost var configured := (site, targetBlocksInForagingArea, arenaRangeX, arenaRangeY);
      for i := 0 to |builderbots|
        invariant robots == old(robots) + builderbots[..i]
        invariant blocks == old(blocks)
        invariant (site, targetBlocksInForagingArea, arenaRangeX, arenaRangeY) == configured
      {
        robots := robots + [builderbots[i]];
      }
      assert builderbots[..|builderbots|] == builderbots;
      if spaceBlocks == [] {
        return NoBlocks;
      }
      for i := 0 to |spaceBlocks|
        invariant blocks == old(blocks) + spaceBlocks[..i]
        invariant robots == old(robots) + builderbots
        invariant (site, targetBlocksInForagingArea, arenaRangeX, arenaRangeY) == configured
      {
        blocks := blocks + [spaceBlocks[i]];
      }
      assert spaceBlocks[..|spaceBlocks|] == spaceBlocks;
      result := Ok;
    }

    /** Counts the blocks in the two areas and, when the foraging area is short,
        adds at most one block, named after the current length of the list.
        `spawned` is the position the kept block was created at. The candidates
        are drawn uniformly from the arena ranges. */
    method PreStep(origin: EntityId -> Vec3, candidates: seq<Candidate>, collides: Vec3 -> bool)
      returns (spawned: Option<Vec3>)
      requires forall c :: c in candidates ==> arenaRangeX.Contains(c.x) && arenaRangeY.Contains(c.y)
      modifies this`blocks
      ensures var added := Replenishment(old(blocks), robots, site, targetBlocksInForagingArea, origin, candidates, collides);
        && blocks == old(blocks) + (if added.Some? then [BlockId(|old(blocks)|)] else [])
        && spawned == (if added.Some? then Some(SpawnPosition(added.value)) else None)
      ensures |old(blocks)| <= |blocks| <= |old(blocks)| + 1
      ensures spawned.Some? ==> arenaRangeX.Contains(spawned.value.x) && arenaRangeY.Contains(spawned.value.y)
      ensures spawned.Some? ==> !site.Contains(spawned.value.x, spawned.value.y)
    {
      var inside, foraging := CountBlocks(blocks, origin, site);
      spawned := None;
      if foraging < targetBlocksInForagingArea {
        var k := FindPlacement(candidates, site, robots, origin, collides);
        FirstAcceptableIsFirst(candidates, 0, site, robots, origin, collides);
        if k.Some? {
          spawned := Some(SpawnPosition(candidates[k.value]));
          blocks := blocks + [BlockId(|blocks|)];
        }
      }
    }
  }
}
