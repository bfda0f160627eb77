/**
  The particle field behind the page (`GenerativeCanvas.tsx`): a grid of
  particles laid out column by column on a 50-pixel pitch, each tied to an
  anchor it springs back to, pushed away by the pointer.

  `Math.random` is a parameter (`draw`, one triple of draws per particle);
  the repulsion vector, which needs `sqrt`, `atan2`, `cos` and `sin`, is a
  parameter of the step (`repel`); the distance test that guards it is
  compared without the square root. All arithmetic here, including
  velocities and positions, is over exact reals, so float64 rounding is
  not modelled.
*/
module GenerativeCanvas {

  // ---------------------------------------------------------------------------
  // The grid of anchors
  // ---------------------------------------------------------------------------

  /** The distance between neighbouring anchors, and half of it, the margin. */
  const Pitch: int := 50
  const Offset: int := 25

  /** A particle's home position, in whole pixels. */
  datatype Anchor = Anchor(x: int, y: int)

  /** Column `i` of the grid: `rows` anchors from top to bottom. */
  function Column(i: int, rows: nat): (col: seq<Anchor>)
    ensures |col| == rows
    ensures forall j | 0 <= j < rows :: col[j] == Anchor(i * Pitch + Offset, j * Pitch + Offset)
  {
    seq(rows, j => Anchor(i * Pitch + Offset, j * Pitch + Offset))
  }

  /** The anchors of the first `cols` columns, column after column. */
  function Grid(cols: nat, rows: nat): seq<Anchor>
  {
    if cols == 0 then [] else Grid(cols - 1, rows) + Column(cols - 1, rows)
  }

  /** A grid of `cols` columns holds `cols * rows` anchors. */
  lemma {:induction false} GridSize(cols: nat, rows: nat)
    ensures |Grid(cols, rows)| == cols * rows
  {
    if cols > 0 {
      GridSize(cols - 1, rows);
    }
  }

  /** Column-major order: the anchor at `i * rows + j` is column `i`, row `j`. */
  lemma {:induction false} GridAt(cols: nat, rows: nat, i: nat, j: nat)
    requires i < cols && j < rows
    ensures i * rows + j < |Grid(cols, rows)|
    ensures Grid(cols, rows)[i * rows + j] == Anchor(i * Pitch + Offset, j * Pitch + Offset)
  {
    GridSize(cols - 1, rows);
    GridSize(cols, rows);
    if i < cols - 1 {
      GridAt(cols - 1, rows, i, j);
    } else {
      assert i * rows + j == (cols - 1) * rows + j;
    }
  }

  lemma LessByFactor(a: nat, b: nat, r: nat)
    requires a * r < b * r
    ensures a < b
  {
  }

  /** Every index of the grid is the index of a column and a row. */
  lemma IndexIsColumnAndRow(cols: nat, rows: nat, k: nat)
    requires k < |Grid(cols, rows)|
    ensures rows > 0 && k / rows < cols && k == (k / rows) * rows + k % rows
    ensures Grid(cols, rows)[k] == Anchor((k / rows) * Pitch + Offset, (k % rows) * Pitch + Offset)
  {
    GridSize(cols, rows);
    assert rows > 0;
    var i, j := k / rows, k % rows;
    assert k == i * rows + j;
    LessByFactor(i, cols, rows);
    GridAt(cols, rows, i, j);
  }

  /** No two particles share an anchor. */
  lemma GridDistinct(cols: nat, rows: nat)
    ensures forall k, m | 0 <= k < m < |Grid(cols, rows)| :: Grid(cols, rows)[k] != Grid(cols, rows)[m]
  {
    forall k, m | 0 <= k < m < |Grid(cols, rows)| ensures Grid(cols, rows)[k] != Grid(cols, rows)[m] {
      IndexIsColumnAndRow(cols, rows, k);
      IndexIsColumnAndRow(cols, rows, m);
    }
  }

  /**
    Neighbours are one pitch apart on one axis: the next row of the same
    column is 50 pixels lower, the same row of the next column 50 pixels
    further right.
  */
  lemma GridNeighbours(cols: nat, rows: nat, i: nat, j: nat)
    requires i < cols && j < rows
    ensures j + 1 < rows ==>
      && i * rows + j + 1 < |Grid(cols, rows)|
      && Grid(cols, rows)[i * rows + j + 1].x == Grid(cols, rows)[i * rows + j].x
      && Grid(cols, rows)[i * rows + j + 1].y == Grid(cols, rows)[i * rows + j].y + Pitch
    ensures i + 1 < cols ==>
      && (i + 1) * rows + j < |Grid(cols, rows)|
      && Grid(cols, rows)[(i + 1) * rows + j].x == Grid(cols, rows)[i * rows + j].x + Pitch
      && Grid(cols, rows)[(i + 1) * rows + j].y == Grid(cols, rows)[i * rows + j].y
  {
    GridAt(cols, rows, i, j);
    if j + 1 < rows {
      GridAt(cols, rows, i, j + 1);
    }
    if i + 1 < cols {
      GridAt(cols, rows, i + 1, j);
      assert (i + 1) * rows + j == i * rows + rows + j;
    }
  }

  /** On a canvas of `width` by `height` pixels every anchor is at least 25 pixels inside each edge. */
  lemma GridInsideCanvas(width: nat, height: nat)
    ensures forall a | a in Grid(width / Pitch, height / Pitch) ::
      Offset <= a.x <= width - Offset && Offset <= a.y <= height - Offset
  {
    var cols, rows := width / Pitch, height / Pitch;
    forall a | a in Grid(cols, rows) ensures Offset <= a.x <= width - Offset && Offset <= a.y <= height - Offset {
      var k :| 0 <= k < |Grid(cols, rows)| && Grid(cols, rows)[k] == a;
      IndexIsColumnAndRow(cols, rows, k);
      var i, j := k / rows, k % rows;
      assert i + 1 <= cols && j + 1 <= rows;
      assert i * Pitch + Pitch <= cols * Pitch <= width;
      assert j * Pitch + Pitch <= rows * Pitch <= height;
    }
  }

  // ---------------------------------------------------------------------------
  // Particles
  // ---------------------------------------------------------------------------

  /** The three `Math.random()` results a new particle consumes: size, hue, alpha. */
  datatype Draw = Draw(size: real, hue: real, alpha: real)

  /** What `Math.random` promises: each result is in [0, 1). */
  predicate IsUniform(d: Draw)
  {
    0.0 <= d.size < 1.0 && 0.0 <= d.hue < 1.0 && 0.0 <= d.alpha < 1.0
  }

  /** An `hsla(hue, 70%, 60%, alpha)` colour; its rendering as text is not modelled. */
  datatype Hsla = Hsla(hue: real, saturation: int, lightness: int, alpha: real)

  /** `Math.random() * 2 + 1`. */
  function SizeFor(d: Draw): (size: real)
    ensures IsUniform(d) ==> 1.0 <= size < 3.0
  {
    d.size * 2.0 + 1.0
  }

  /** `hsla(${260 + Math.random() * 60}, 70%, 60%, ${0.3 + Math.random() * 0.4})`. */
  function ColorFor(d: Draw): (c: Hsla)
    ensures c.saturation == 70 && c.lightness == 60
    ensures IsUniform(d) ==> 260.0 <= c.hue < 320.0 && 0.3 <= c.alpha < 0.7
  {
    Hsla(260.0 + d.hue * 60.0, 70, 60, 0.3 + d.alpha * 0.4)
  }

  /** Position and velocity, the part of a particle a frame changes. */
  datatype Motion = Motion(x: real, y: real, vx: real, vy: real)

  /** The pointer's reach: it pushes particles closer than this. */
  const MaxDist: real := 200.0

  /** The spring constant pulling a particle back to its anchor, and the per-frame damping. */
  const Spring: real := 0.02
  const Damping: real := 0.95

  /** `Math.sqrt(dx * dx + dy * dy) < maxDist`, without the square root. */
  predicate WithinReach(dx: real, dy: real)
  {
    dx * dx + dy * dy < MaxDist * MaxDist
  }

  /**
    One frame of one particle: the push (when the pointer is within reach),
    the spring towards the anchor, the damping, then the move.
    `repel(dx, dy)` is the velocity the push takes away.
  */
  function Advance(m: Motion, anchor: Anchor, mouseX: real, mouseY: real,
                   repel: (real, real) -> (real, real)): (r: Motion)
  {
    var dx := mouseX - m.x;
    var dy := mouseY - m.y;
    var push := if WithinReach(dx, dy) then repel(dx, dy) else (0.0, 0.0);
    var vx := (m.vx - push.0 + (anchor.x as real - m.x) * Spring) * Damping;
    var vy := (m.vy - push.1 + (anchor.y as real - m.y) * Spring) * Damping;
    Motion(m.x + vx, m.y + vy, vx, vy)
  }

  /** Out of the pointer's reach the push plays no part. */
  lemma OutOfReachIgnoresRepulsion(m: Motion, anchor: Anchor, mouseX: real, mouseY: real,
                                   repel1: (real, real) -> (real, real), repel2: (real, real) -> (real, real))
    requires !WithinReach(mouseX - m.x, mouseY - m.y)
    ensures Advance(m, anchor, mouseX, mouseY, repel1) == Advance(m, anchor, mouseX, mouseY, repel2)
    ensures Advance(m, anchor, mouseX, mouseY, repel1).vx == (m.vx + (anchor.x as real - m.x) * Spring) * Damping
    ensures Advance(m, anchor, mouseX, mouseY, repel1).vy == (m.vy + (anchor.y as real - m.y) * Spring) * Damping
  {
  }

  /** A particle resting on its anchor, out of the pointer's reach, stays where it is. */
  lemma RestIsFixedPoint(anchor: Anchor, mouseX: real, mouseY: real, repel: (real, real) -> (real, real))
    requires !WithinReach(mouseX - anchor.x as real, mouseY - anchor.y as real)
    ensures Advance(Motion(anchor.x as real, anchor.y as real, 0.0, 0.0), anchor, mouseX, mouseY, repel)
      == Motion(anchor.x as real, anchor.y as real, 0.0, 0.0)
  {
  }

  /** A particle of the field. */
  class Particle {
    var x: real
    var y: real
    var vx: real
    var vy: real
    var size: real
    var color: Hsla
    var originalX: int
    var originalY: int

    function Kinematics(): Motion
      reads this
    {
      Motion(x, y, vx, vy)
    }

    function Home(): Anchor
      reads this
    {
      Anchor(originalX, originalY)
    }

    /** The body of `animate`'s `forEach` for this particle, drawing left out. */
    method Update(mouseX: real, mouseY: real, repel: (real, real) -> (real, real))
      modifies this
      ensures Kinematics() == Advance(old(Kinematics()), Home(), mouseX, mouseY, repel)
      ensures Home() == old(Home()) && size == old(size) && color == old(color)
    {
      var dx := mouseX - x;
      var dy := mouseY - y;
      if WithinReach(dx, dy) {
        var push := repel(dx, dy);
        vx := vx - push.0;
        vy := vy - push.1;
      }
      vx := vx + (originalX as real - x) * Spring;
      vy := vy + (originalY as real - y) * Spring;
      vx := vx * Damping;
      vy := vy * Damping;
      x := x + vx;
      y := y + vy;
    }

    /** A new particle: at rest on its anchor, sized and coloured by its draws. */
    constructor(anchor: Anchor, d: Draw)
      ensures Home() == anchor
      ensures Kinematics() == Motion(anchor.x as real, anchor.y as real, 0.0, 0.0)
      ensures size == SizeFor(d) && color == ColorFor(d)
    {
      x := anchor.x as real;
      y := anchor.y as real;
      originalX := anchor.x;
      originalY := anchor.y;
      vx := 0.0;
      vy := 0.0;
      size := SizeFor(d);
      color := ColorFor(d);
    }
  }

  /** `ps` holds no particle twice. */
  predicate NoAliases(ps: seq<Particle>)
  {
    forall k, m | 0 <= k < m < |ps| :: ps[k] != ps[m]
  }

  /** `ps` is a freshly laid grid: the anchors in order, every particle at rest, particle `k` drawn with `draw(k)`. */
  ghost predicate Laid(ps: seq<Particle>, anchors: seq<Anchor>, draw: nat -> Draw)
    reads set p | p in ps
  {
    && |ps| == |anchors|
    && forall k | 0 <= k < |ps| ::
         && ps[k].Home() == anchors[k]
         && ps[k].Kinematics() == Motion(anchors[k].x as real, anchors[k].y as real, 0.0, 0.0)
         && ps[k].size == SizeFor(draw(k)) && ps[k].color == ColorFor(draw(k))
  }

  lemma LaidSnoc(ps: seq<Particle>, anchors: seq<Anchor>, draw: nat -> Draw, p: Particle, a: Anchor)
    requires Laid(ps, anchors, draw)
    requires p.Home() == a && p.Kinematics() == Motion(a.x as real, a.y as real, 0.0, 0.0)
    requires p.size == SizeFor(draw(|ps|)) && p.color == ColorFor(draw(|ps|))
    ensures Laid(ps + [p], anchors + [a], draw)
  {
    forall k | 0 <= k < |ps| ensures (ps + [p])[k] == ps[k] && (anchors + [a])[k] == anchors[k] {
    }
  }

  /** The canvas with its particles and the last pointer position. */
  class ParticleField {
    var width: nat
    var height: nat
    var particles: seq<Particle>
    var mouseX: real
    var mouseY: real

    /** Mounting: the pointer starts at the origin and the canvas is sized to the window. */
    constructor(innerWidth: nat, innerHeight: nat, draw: nat -> Draw)
      ensures width == innerWidth && height == innerHeight
      ensures mouseX == 0.0 && mouseY == 0.0
      ensures NoAliases(particles)
      ensures Laid(particles, Grid(innerWidth / Pitch, innerHeight / Pitch), draw)
      ensures forall k | 0 <= k < |particles| :: fresh(particles[k])
    {
      mouseX, mouseY := 0.0, 0.0;
      width, height := innerWidth, innerHeight;
      new;
      InitParticles(draw);
    }

    /** `initParticles`: drop every particle and lay a new grid for the current size. */
    method InitParticles(draw: nat -> Draw)
      modifies this
      ensures width == old(width) && height == old(height)
      ensures mouseX == old(mouseX) && mouseY == old(mouseY)
      ensures NoAliases(particles)
      ensures Laid(particles, Grid(width / Pitch, height / Pitch), draw)
      ensures forall k | 0 <= k < |particles| :: fresh(particles[k])
    {
      particles := [];
      var cols := width / Pitch;
      var rows := height / Pitch;
      for i := 0 to cols
        invariant width == old(width) && height == old(height)
        invariant mouseX == old(mouseX) && mouseY == old(mouseY)
        invariant NoAliases(particles)
        invariant Laid(particles, Grid(i, rows), draw)
        invariant forall k | 0 <= k < |particles| :: fresh(particles[k])
      {
        LayColumn(i, rows, draw, Grid(i, rows));
      }
      assert cols == width / Pitch && rows == height / Pitch;
    }

    /** The inner loop of `initParticles`: lay column `i`, top to bottom. */
    method LayColumn(i: nat, rows: nat, draw: nat -> Draw, ghost laid: seq<Anchor>)
      requires NoAliases(particles)
      requires Laid(particles, laid, draw)
      modifies this
      ensures width == old(width) && height == old(height)
      ensures mouseX == old(mouseX) && mouseY == old(mouseY)
      ensures NoAliases(particles)
      ensures Laid(particles, laid + Column(i, rows), draw)
      ensures |particles| == |old(particles)| + rows && particles[..|old(particles)|] == old(particles)
      ensures forall k | |old(particles)| <= k < |particles| :: fresh(particles[k])
    {
      ghost var before := particles;
      for j := 0 to rows
        invariant width == old(width) && height == old(height)
        invariant mouseX == old(mouseX) && mouseY == old(mouseY)
        invariant NoAliases(particles)
        invariant Laid(particles, laid + Column(i, rows)[..j], draw)
        invariant |particles| == |before| + j && particles[..|before|] == before
        invariant forall k | |before| <= k < |particles| :: fresh(particles[k])
      {
        var a := Anchor(i * Pitch + Offset, j * Pitch + Offset);
        var p := new Particle(a, draw(|particles|));
        assert Column(i, rows)[..j + 1] == Column(i, rows)[..j] + [a];
        assert laid + Column(i, rows)[..j + 1] == laid + Column(i, rows)[..j] + [a];
        LaidSnoc(particles, laid + Column(i, rows)[..j], draw, p, a);
        particles := particles + [p];
      }
      assert Column(i, rows)[..rows] == Column(i, rows);
    }

    /** `resize`: take the window's size, then lay the grid again. */
    method Resize(innerWidth: nat, innerHeight: nat, draw: nat -> Draw)
      modifies this
      ensures width == innerWidth && height == innerHeight
      ensures mouseX == old(mouseX) && mouseY == old(mouseY)
      ensures NoAliases(particles)
      ensures Laid(particles, Grid(innerWidth / Pitch, innerHeight / Pitch), draw)
      ensures forall k | 0 <= k < |particles| :: fresh(particles[k])
    {
      width := innerWidth;
      height := innerHeight;
      InitParticles(draw);
    }

    /** `handleMouseMove`: remember where the pointer is. */
    method HandleMouseMove(clientX: real, clientY: real)
      modifies this
      ensures mouseX == clientX && mouseY == clientY
      ensures width == old(width) && height == old(height) && particles == old(particles)
    {
      mouseX, mouseY := clientX, clientY;
    }

    /**
      The particle update of one `animate` frame: every particle advances by
      `Advance`; anchors, sizes, colours, the list and the canvas stay as
      they were.
    */
    method Animate(repel: (real, real) -> (real, real))
      requires NoAliases(particles)
      modifies set p | p in particles
      ensures particles == old(particles)
      ensures forall k | 0 <= k < |particles| ::
        particles[k].Kinematics() == Advance(old(particles[k].Kinematics()), particles[k].Home(), mouseX, mouseY, repel)
      ensures forall k | 0 <= k < |particles| ::
        && particles[k].Home() == old(particles[k].Home())
        && particles[k].size == old(particles[k].size)
        && particles[k].color == old(particles[k].color)
    {
      for k := 0 to |particles|
        invariant forall m | 0 <= m < k ::
          particles[m].Kinematics() == Advance(old(particles[m].Kinematics()), particles[m].Home(), mouseX, mouseY, repel)
        invariant forall m | k <= m < |particles| :: particles[m].Kinematics() == old(particles[m].Kinematics())
        invariant forall m | 0 <= m < |particles| ::
          && particles[m].Home() == old(particles[m].Home())
          && particles[m].size == old(particles[m].size)
          && particles[m].color == old(particles[m].color)
      {
        particles[k].Update(mouseX, mouseY, repel);
      }
    }
  }

  /** After laying, the particles sit on a grid of `floor(width / 50) * floor(height / 50)` distinct anchors inside the canvas. */
  lemma LaidGridShape(ps: seq<Particle>, width: nat, height: nat, draw: nat -> Draw)
    requires Laid(ps, Grid(width / Pitch, height / Pitch), draw)
    ensures |ps| == (width / Pitch) * (height / Pitch)
    ensures forall k, m | 0 <= k < m < |ps| :: ps[k].Home() != ps[m].Home()
    ensures forall k | 0 <= k < |ps| ::
      Offset <= ps[k].originalX <= width - Offset && Offset <= ps[k].originalY <= height - Offset
  {
    var g := Grid(width / Pitch, height / Pitch);
    GridSize(width / Pitch, height / Pitch);
    GridDistinct(width / Pitch, height / Pitch);
    GridInsideCanvas(width, height);
    forall k | 0 <= k < |ps|
      ensures Offset <= ps[k].originalX <= width - Offset && Offset <= ps[k].originalY <= height - Offset
    {
      assert ps[k].Home() == g[k];
      assert g[k] in g;
    }
  }
}
