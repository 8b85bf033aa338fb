/**
 * The three visibility tests of the ISS tracker: is the station overhead,
 * is it dark, is the sky clear. Each test is a pure comparison once the
 * API payloads have been decoded.
 */
module Visibility {

  /** ERROR: the half-width, in degrees, of the box around home. */
  const Error: real := 5.0

  /** CLOUD_COVER_THRESHOLD: the largest cloud cover, in percent, still counted as clear. */
  const CloudCoverThreshold: int := 50

  function Abs(x: real): real
  {
    if x < 0.0 then -x else x
  }

  /**
   * check_iss_overhead: the station is overhead when its latitude and its
   * longitude each lie within Error of home, both bounds included. This is
   * an axis-aligned box, not a great-circle distance.
   */
  function IsOverhead(myLat: real, myLong: real, issLat: real, issLong: real): (above: bool)
    ensures above <==> Abs(issLat - myLat) <= Error && Abs(issLong - myLong) <= Error
  {
    myLat - Error <= issLat <= myLat + Error && myLong - Error <= issLong <= myLong + Error
  }

  /**
   * check_if_dark: dark from the sunset hour on and before the sunrise hour,
   * that is, outside the daylight hours [sunrise, sunset). The second clause
   * is the consequence worth knowing: when the sunset hour is earlier than
   * the sunrise hour that interval is empty and every hour counts as dark.
   */
  function IsDark(currentHour: int, sunriseHour: int, sunsetHour: int): (dark: bool)
    ensures dark <==> !(sunriseHour <= currentHour < sunsetHour)
    ensures sunsetHour < sunriseHour ==> dark
  {
    currentHour >= sunsetHour || currentHour < sunriseHour
  }

  /** check_not_cloudy: clear when the cloud cover is at most the threshold. */
  predicate IsClearSky(cloudCoverage: int)
  {
    cloudCoverage <= CloudCoverThreshold
  }

  /** Clear sky is downward closed: less cloud than a clear reading is clear too. */
  lemma ClearSkyMonotone(less: int, more: int)
    requires less <= more && IsClearSky(more)
    ensures IsClearSky(less)
  {
  }

  /** The boundary cases of the three tests: every bound that should be inclusive is. */
  lemma Boundaries()
    ensures IsOverhead(0.0, 0.0, 4.0, 4.0) && IsOverhead(0.0, 0.0, 5.0, 5.0) && IsOverhead(0.0, 0.0, -5.0, -5.0)
    ensures !IsOverhead(0.0, 0.0, 6.0, 6.0) && !IsOverhead(0.0, 0.0, 0.0, 5.5)
    ensures IsDark(20, 6, 18) && IsDark(18, 6, 18) && IsDark(5, 6, 18)
    ensures !IsDark(12, 6, 18) && !IsDark(6, 6, 18) && !IsDark(17, 6, 18)
    ensures IsClearSky(50) && !IsClearSky(51)
  {
  }
}
