/** Where newly dealt cards start: bottom centre, just below the canvas. */
module DealSpawn {

  datatype Point = Point(x: real, y: real)

  /** `computeSpawnPoint(app, defaultCardH, yFactor = 0.8)` for a renderer of size W by H. */
  function ComputeSpawnPoint(W: real, H: real, defaultCardH: real, yFactor: real := 0.8): (p: Point)
    ensures p.x + p.x == W
    ensures p.y - H == defaultCardH * yFactor
  {
    Point(W / 2.0, H + defaultCardH * yFactor)
  }

  /** With a positive card height and factor the spawn point is below the bottom edge,
    * horizontally centred; with the default factor it is 0.8 card heights below. */
  lemma SpawnBelowCanvas(W: real, H: real, defaultCardH: real, yFactor: real)
    requires defaultCardH > 0.0 && yFactor > 0.0
    ensures ComputeSpawnPoint(W, H, defaultCardH, yFactor).y > H
    ensures ComputeSpawnPoint(W, H, defaultCardH).y == H + 0.8 * defaultCardH
  {
    assert defaultCardH * yFactor > 0.0;
  }
}
