/** The grid and zoom constants of the garden canvas. */
module GridConfig {
  /** Size of a grid cell in pixels. */
  const GridSize: int := 30

  /** Zoom limits and the factor applied by one zoom step. */
  const MinZoom: real := 0.1
  const MaxZoom: real := 5.0
  const ZoomFactor: real := 1.1
}
