/** The geographic plausibility filter applied to geocoding results. */
module Geo {

  /** Bounds of the closed latitude/longitude rectangle taken as India, in degrees. */
  const MinLat: real := 6.0
  const MaxLat: real := 38.0
  const MinLon: real := 68.0
  const MaxLon: real := 98.0

  /** Whether a coordinate lies inside India's bounding box. */
  predicate IsInIndia(lat: real, lon: real)
    ensures IsInIndia(lat, lon) <==> 6.0 <= lat <= 38.0 && 68.0 <= lon <= 98.0
  {
    MinLat <= lat <= MaxLat && MinLon <= lon <= MaxLon
  }

  /** All four corners of the box are accepted: every bound is inclusive. */
  lemma IsInIndiaBounds()
    ensures IsInIndia(6.0, 68.0) && IsInIndia(6.0, 98.0) && IsInIndia(38.0, 68.0) && IsInIndia(38.0, 98.0)
  {
  }

  /**
   * The box is a product of two intervals: a point whose latitude comes from
   * one accepted point and whose longitude comes from another is accepted,
   * and so is any point between two accepted points.
   */
  lemma IsInIndiaRectangle(lat1: real, lon1: real, lat2: real, lon2: real, lat: real, lon: real)
    requires IsInIndia(lat1, lon1) && IsInIndia(lat2, lon2)
    requires (lat1 <= lat <= lat2 || lat2 <= lat <= lat1) && (lon1 <= lon <= lon2 || lon2 <= lon <= lon1)
    ensures IsInIndia(lat1, lon2) && IsInIndia(lat2, lon1)
    ensures IsInIndia(lat, lon)
  {
  }
}
