/** Annotations the visualisation draws around robots: the robot's `draw`
    debug buffer, one instruction per line, of which arrows and rings are drawn
    and everything else is ignored; and the display lists the shapes are drawn
    with. */
module Annotation {
  import opened Base

  /** A line of the draw buffer, split into tokens at `(` and `)`. Splitting
      (`Tokenize`) and reading colours, vectors and radii out of the tokens are
      done by library code; the model keeps the tokens as text. */
  type Tokens = seq<string>

  datatype Shape =
    | Arrow(color: string, from: string, to: string)
    | Ring(color: string, center: string, radius: string)

  /** The shape one line asks for, if any. */
  function Instruction(t: Tokens): (r: Option<Shape>)
    ensures (r.Some? && r.value.Arrow?) <==> |t| == 4 && t[0] == "arrow"
    ensures (r.Some? && r.value.Ring?) <==> |t| == 4 && t[0] == "ring"
    ensures r.Some? ==> |t| == 4 && r.value == (if t[0] == "arrow" then Arrow(t[1], t[2], t[3]) else Ring(t[1], t[2], t[3]))
  {
    if |t| == 4 && t[0] == "arrow" then Some(Arrow(t[1], t[2], t[3]))
    else if |t| == 4 && t[0] == "ring" then Some(Ring(t[1], t[2], t[3]))
    else None
  }

  function Emit(o: Option<Shape>): seq<Shape> {
    if o.Some? then [o.value] else []
  }

  /** The shapes drawn for a sequence of lines, in line order. */
  function DrawCommands(lines: seq<Tokens>): seq<Shape> {
    if lines == [] then []
    else DrawCommands(lines[..|lines| - 1]) + Emit(Instruction(lines[|lines| - 1]))
  }

  /** Drawing is line by line: the shapes of two blocks of lines are the shapes
      of the first followed by those of the second. */
  lemma {:induction false} DrawCommandsAppend(a: seq<Tokens>, b: seq<Tokens>)
    ensures DrawCommands(a + b) == DrawCommands(a) + DrawCommands(b)
    decreases |b|
  {
    if b != [] {
      var b' := b[..|b| - 1];
      assert (a + b)[..|a + b| - 1] == a + b';
      var e := Emit(Instruction(b[|b| - 1]));
      assert (a + b)[|a + b| - 1] == b[|b| - 1];
      calc {
        DrawCommands(a + b);
        DrawCommands(a + b') + e;
        { DrawCommandsAppend(a, b'); }
        DrawCommands(a) + DrawCommands(b') + e;
        DrawCommands(a) + DrawCommands(b);
      }
    }
    else {
      assert a + b == a;
    }
  }

  /** A single line draws its own shape or nothing. */
  lemma DrawCommandsOne(t: Tokens)
    ensures Instruction(t).Some? ==> DrawCommands([t]) == [Instruction(t).value]
    ensures Instruction(t).None? ==> DrawCommands([t]) == []
  {
    assert [t][..0] == [];
  }

  /** At most one shape per line. */
  lemma {:induction false} DrawCommandsAtMostOnePerLine(lines: seq<Tokens>)
    ensures |DrawCommands(lines)| <= |lines|
  {
    if lines != [] {
      DrawCommandsAtMostOnePerLine(lines[..|lines| - 1]);
    }
  }

  /** Position of the first line break in `b` at or after `i`, or `|b|` when
      there is none. */
  function BreakFrom(b: string, i: nat): (k: nat)
    requires i <= |b|
    ensures i <= k <= |b|
    ensures k < |b| ==> b[k] == '\n'
    decreases |b| - i
  {
    if i == |b| || b[i] == '\n' then i else BreakFrom(b, i + 1)
  }

  lemma {:induction false} BreakFromIsFirst(b: string, i: nat)
    requires i <= |b|
    ensures forall j :: i <= j < BreakFrom(b, i) ==> b[j] != '\n'
    decreases |b| - i
  {
    if i < |b| && b[i] != '\n' {
      BreakFromIsFirst(b, i + 1);
    }
  }

  lemma {:induction false} BreakFromAppend(b1: string, b2: string, i: nat)
    requires i <= |b1| && BreakFrom(b1, i) < |b1|
    ensures BreakFrom(b1 + b2, i) == BreakFrom(b1, i)
    decreases |b1| - i
  {
    assert (b1 + b2)[i] == b1[i];
    if b1[i] != '\n' {
      BreakFromAppend(b1, b2, i + 1);
    }
  }

  /** Position of the first line break in `b`, or `|b|` when there is none. */
  function LineEnd(b: string): (k: nat)
    ensures k <= |b|
    ensures k < |b| ==> b[k] == '\n'
  {
    BreakFrom(b, 0)
  }

  /** There is no break before `LineEnd(b)`. */
  lemma LineEndIsFirst(b: string)
    ensures forall i :: 0 <= i < LineEnd(b) ==> b[i] != '\n'
  {
    BreakFromIsFirst(b, 0);
  }

  /** The lines `std::getline` reads from a buffer: text up to each line break,
      and the text after the last line break if there is any. */
  function Lines(b: string): (ls: seq<string>)
    ensures forall i :: 0 <= i < |ls| ==> '\n' !in ls[i]
    decreases |b|
  {
    if b == [] then []
    else
      var k := LineEnd(b);
      LineEndIsFirst(b);
      if k == |b| then [b] else [b[..k]] + Lines(b[k + 1..])
  }

  /** Each line followed by a line break. */
  function Unlines(ls: seq<string>): string {
    if ls == [] then [] else ls[0] + "\n" + Unlines(ls[1..])
  }

  /** The line break `Unlines` adds to a buffer that does not end in one. */
  function MissingBreak(b: string): string {
    if b == [] || b[|b| - 1] == '\n' then "" else "\n"
  }

  lemma UnlinesCons(line: string, ls: seq<string>)
    ensures Unlines([line] + ls) == line + "\n" + Unlines(ls)
  {
    assert ([line] + ls)[1..] == ls;
  }

  /** A buffer that breaks at `k` is the line before `k`, the break, and the rest. */
  lemma SplitAtBreak(b: string, k: nat)
    requires k < |b| && b[k] == '\n'
    ensures b == b[..k] + "\n" + b[k + 1..]
    ensures MissingBreak(b) == MissingBreak(b[k + 1..])
  {
    assert b == b[..k] + [b[k]] + b[k + 1..];
  }

  /** Reading the lines loses only a missing final line break. */
  lemma {:induction false} LinesRoundTrip(b: string)
    ensures Unlines(Lines(b)) == b + MissingBreak(b)
    decreases |b|
  {
    if b != [] {
      var k := LineEnd(b);
      if k < |b| {
        var line, rest := b[..k], b[k + 1..];
        assert Lines(b) == [line] + Lines(rest);
        LinesRoundTrip(rest);
        SplitAtBreak(b, k);
        UnlinesCons(line, Lines(rest));
      }
      else {
        LineEndIsFirst(b);
        assert Lines(b) == [b];
        UnlinesCons(b, []);
      }
    }
  }

  /** A break inside `b1` ends the first line of `b1 + b2` where it ends that of `b1`. */
  lemma LineEndAppend(b1: string, b2: string)
    requires LineEnd(b1) < |b1|
    ensures LineEnd(b1 + b2) == LineEnd(b1)
  {
    BreakFromAppend(b1, b2, 0);
  }

  /** A buffer with a break reads as its first line, then the lines after the break. */
  lemma LinesStep(b: string)
    requires LineEnd(b) < |b|
    ensures Lines(b) == [b[..LineEnd(b)]] + Lines(b[LineEnd(b) + 1..])
  {
  }

  /** A complete first line of `b1` is also the first line of `b1 + b2`, and
      what follows it is the rest of `b1` followed by `b2`. */
  lemma LinesStepAppend(b1: string, b2: string)
    requires b1 != [] && b1[|b1| - 1] == '\n'
    ensures LineEnd(b1) < |b1|
    ensures Lines(b1) == [b1[..LineEnd(b1)]] + Lines(b1[LineEnd(b1) + 1..])
    ensures Lines(b1 + b2) == [b1[..LineEnd(b1)]] + Lines(b1[LineEnd(b1) + 1..] + b2)
    ensures var rest := b1[LineEnd(b1) + 1..]; rest == [] || rest[|rest| - 1] == '\n'
  {
    var k := LineEnd(b1);
    LineEndIsFirst(b1);
    LineEndAppend(b1, b2);
    assert (b1 + b2)[..k] == b1[..k];
    assert (b1 + b2)[k + 1..] == b1[k + 1..] + b2;
    LinesStep(b1);
    LinesStep(b1 + b2);
  }

  /** A buffer made of complete lines followed by more text reads as the lines
      of the first part followed by those of the second. */
  lemma {:induction false} LinesAppend(b1: string, b2: string)
    requires b1 == [] || b1[|b1| - 1] == '\n'
    ensures Lines(b1 + b2) == Lines(b1) + Lines(b2)
    decreases |b1|
  {
    if b1 == [] {
      assert b1 + b2 == b2;
    }
    else {
      LinesStepAppend(b1, b2);
      var line, rest := b1[..LineEnd(b1)], b1[LineEnd(b1) + 1..];
      LinesAppend(rest, b2);
      calc {
        Lines(b1 + b2);
        [line] + Lines(rest + b2);
        [line] + (Lines(rest) + Lines(b2));
        ([line] + Lines(rest)) + Lines(b2);
        Lines(b1) + Lines(b2);
      }
    }
  }

  function TokenizeAll(ls: seq<string>, tokenize: string -> Tokens): (ts: seq<Tokens>)
    ensures |ts| == |ls| && forall i :: 0 <= i < |ls| ==> ts[i] == tokenize(ls[i])
  {
    seq(|ls|, i requires 0 <= i < |ls| => tokenize(ls[i]))
  }

  lemma TokenizeAllAppend(l1: seq<string>, l2: seq<string>, tokenize: string -> Tokens)
    ensures TokenizeAll(l1 + l2, tokenize) == TokenizeAll(l1, tokenize) + TokenizeAll(l2, tokenize)
  {
  }

  datatype Quaternion = Quaternion(w: real, x: real, y: real, z: real)

  /** `SAnchor`: a position and an orientation. */
  datatype Anchor = Anchor(position: Vec3, orientation: Quaternion)

  /** `CDebugEntity`, reduced to its `draw` buffer. */
  datatype DebugEntity = DebugEntity(drawBuffer: string)

  /** What is drawn: the shapes, in the frame of the anchor. */
  datatype Annotation = Annotation(frame: Anchor, shapes: seq<Shape>)

  /** `Annotate(CDebugEntity&, const SAnchor&)`; `tokenize` stands for `Tokenize`
      with the delimiters `()`. */
  function Annotate(debug: DebugEntity, anchor: Anchor, tokenize: string -> Tokens): (a: Annotation)
    ensures a.frame == anchor
    ensures a.shapes == DrawCommands(TokenizeAll(Lines(debug.drawBuffer), tokenize))
    ensures |a.shapes| <= |Lines(debug.drawBuffer)|
  {
    DrawCommandsAtMostOnePerLine(TokenizeAll(Lines(debug.drawBuffer), tokenize));
    Annotation(anchor, DrawCommands(TokenizeAll(Lines(debug.drawBuffer), tokenize)))
  }

  /** Buffers are drawn line by line, in order: a buffer of complete lines
      followed by more text draws the shapes of the first, then those of the
      second. */
  lemma AnnotateAppend(b1: string, b2: string, anchor: Anchor, tokenize: string -> Tokens)
    requires b1 == [] || b1[|b1| - 1] == '\n'
    ensures Annotate(DebugEntity(b1 + b2), anchor, tokenize).shapes
         == Annotate(DebugEntity(b1), anchor, tokenize).shapes + Annotate(DebugEntity(b2), anchor, tokenize).shapes
  {
    LinesAppend(b1, b2);
    TokenizeAllAppend(Lines(b1), Lines(b2), tokenize);
    DrawCommandsAppend(TokenizeAll(Lines(b1), tokenize), TokenizeAll(Lines(b2), tokenize));
  }

  /** One line draws the arrow or ring its tokens ask for, and nothing else. */
  lemma AnnotateOneLine(line: string, anchor: Anchor, tokenize: string -> Tokens)
    requires '\n' !in line
    ensures Annotate(DebugEntity(line + "\n"), anchor, tokenize).shapes == Emit(Instruction(tokenize(line)))
  {
    var b := line + "\n";
    var k := LineEnd(b);
    assert b[|line|] == '\n';
    LineEndIsFirst(b);
    assert k == |line|;
    assert b[..|line|] == line;
    assert b[|line| + 1..] == [];
    assert Lines(b) == [line];
    assert TokenizeAll([line], tokenize) == [tokenize(line)];
    DrawCommandsOne(tokenize(line));
  }

  datatype RobotKind = BuilderBot | Drone | PiPuck

  /** A robot the annotation is registered for, with its debug entity and its
      embodied entity's origin anchor. */
  datatype Robot = Robot(kind: RobotKind, debug: DebugEntity, originAnchor: Anchor)

  /** The three entity overloads of `Annotate`: each one draws the robot's own
      debug buffer in the frame of its origin anchor. */
  function AnnotateRobot(r: Robot, tokenize: string -> Tokens): (a: Annotation)
    ensures a == Annotate(r.debug, r.originAnchor, tokenize)
  {
    match r.kind
    case BuilderBot => Annotate(r.debug, r.originAnchor, tokenize)
    case Drone => Annotate(r.debug, r.originAnchor, tokenize)
    case PiPuck => Annotate(r.debug, r.originAnchor, tokenize)
  }

  /** The display lists of `CCachedShapes`. */
  datatype CachedShapes = CachedShapes(baseList: UInt32, cylinder: UInt32, cone: UInt32, ring: UInt32)

  /** The lists are the three consecutive ids that `glGenLists(3)` reserved from
      `baseList`: cylinder, cone and ring, in that order. */
  function NewCachedShapes(baseList: UInt32): (c: CachedShapes)
    requires baseList + 2 < TWO_POW_32
    ensures c.baseList == baseList
    ensures baseList <= c.cylinder < c.cone < c.ring < baseList + 3
  {
    CachedShapes(baseList, baseList, baseList + 1, baseList + 2)
  }
}
