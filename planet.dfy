// One simulated body: a point mass whose position and velocity change every step
// and which keeps a log of the positions it has left behind.

module Bodies {
  import opened Vectors
  import opened Mapping

  /** Input and output spans of the marker size derived from the mass. */
  const MassSpanLow: real := 0.0
  const MassSpanHigh: real := 20.0
  const DotSizeLow: real := 10.0
  const DotSizeHigh: real := 75.0

  class Planet {
    const name: string
    const mass: real
    /** Marker size for display, derived once from the mass. */
    const dotSize: real
    var pos: Vec3
    var vel: Vec3
    /** The positions held before each call of UpdatePos, oldest first. */
    var posHist: seq<Vec3>

    constructor (name: string, mass: real, pos: Vec3, vel: Vec3)
      ensures this.name == name && this.mass == mass
      ensures this.pos == pos && this.vel == vel
      ensures posHist == []
      ensures dotSize == LinearMap(mass, MassSpanLow, MassSpanHigh, DotSizeLow, DotSizeHigh)
      ensures DotSizeLow <= dotSize <= DotSizeHigh
    {
      this.name := name;
      this.mass := mass;
      this.dotSize := LinearMap(mass, MassSpanLow, MassSpanHigh, DotSizeLow, DotSizeHigh);
      this.pos := pos;
      this.vel := vel;
      this.posHist := [];
      LinearMapWithinRange(mass, MassSpanLow, MassSpanHigh, DotSizeLow, DotSizeHigh);
    }

    /** Logs the current position, then moves by one time step at the current velocity. */
    method UpdatePos(timeStep: real)
      modifies this`pos, this`posHist
      ensures posHist == old(posHist) + [old(pos)]
      ensures pos == Add(old(pos), Scale(vel, timeStep))
    {
      posHist := posHist + [pos];
      pos := Add(pos, Scale(vel, timeStep));
    }
  }
}
