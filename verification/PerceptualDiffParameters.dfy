/**
 * The configuration of one comparison (PerceptualDiffParameters.java).
 */
module Parameters {

  datatype PerceptualDiffParameters = PerceptualDiffParameters(
    /** Only consider luminance; ignore the chroma test. */
    luminanceOnly: bool,
    /** Field of view in degrees. */
    fieldOfView: real,
    /** The gamma that converts to linear colour. */
    gamma: real,
    /** Display luminance in candela per square metre. */
    luminance: real,
    /** How many failing pixels are tolerated before the images are called different. */
    thresholdPixels: int,
    /** Weight of the colour test: 0.0 acts like luminanceOnly, 1.0 is full strength. */
    colorFactor: real)

  /**
   * The default constructor: the colour test is on at full strength, a 45
   * degree field of view, gamma 2.2, a 100 cd/m^2 display and 100 tolerated
   * pixels.
   */
  function Defaults(): (p: PerceptualDiffParameters)
    ensures !p.luminanceOnly && p.colorFactor == 1.0
    ensures p.fieldOfView == 45.0 && p.gamma == 2.2
    ensures p.luminance == 100.0 && p.thresholdPixels == 100
  {
    PerceptualDiffParameters(
      luminanceOnly := false,
      fieldOfView := 45.0,
      gamma := 2.2,
      luminance := 100.0,
      thresholdPixels := 100,
      colorFactor := 1.0)
  }
}
