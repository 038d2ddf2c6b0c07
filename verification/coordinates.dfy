/** Validation of a coordinate typed in by the user (the checks of
    `GetLocationFromUser`). Reading the console is left out: the two lines
    read arrive as `Option<string>` (None for the null `ReadLine` returns at
    end of input), and `double.TryParse` is the parameter `tryParse`, whose
    successful result is a `Double`: a finite value, NaN or an infinity. */
module Coordinates {
  import opened Wrappers

  /** The values a parsed `double` can take, finite ones as exact reals
      (rounding is not modelled). */
  datatype Double = Finite(value: real) | NaN | PositiveInfinity | NegativeInfinity

  /** IEEE 754 `d < bound` for a finite bound: false whenever `d` is NaN. */
  predicate Below(d: Double, bound: real)
  {
    match d
    case Finite(x) => x < bound
    case NegativeInfinity => true
    case _ => false
  }

  /** IEEE 754 `d > bound` for a finite bound: false whenever `d` is NaN. */
  predicate Above(d: Double, bound: real)
  {
    match d
    case Finite(x) => x > bound
    case PositiveInfinity => true
    case _ => false
  }

  /** A coordinate of the model: two exact numbers. */
  datatype Coordinate = Coordinate(latitude: real, longitude: real)

  /** The `GeoCoordinate` the source builds from two doubles. */
  datatype GeoCoordinate = GeoCoordinate(latitude: Double, longitude: Double)

  predicate ValidLatitude(x: real)
  {
    -90.0 <= x <= 90.0
  }

  predicate ValidLongitude(x: real)
  {
    -180.0 <= x <= 180.0
  }

  /** The invariant every coordinate built from user input satisfies. */
  predicate Valid(c: Coordinate)
  {
    ValidLatitude(c.latitude) && ValidLongitude(c.longitude)
  }

  /** The three ways the input is rejected, one per message the program prints. */
  datatype CoordinateError = EmptyInput | InvalidLatitude | InvalidLongitude

  /** A parse outcome that is a number passing one bound check. */
  predicate Accepted(parsed: Option<Double>, inRange: real -> bool)
  {
    parsed.Some? && parsed.value.Finite? && inRange(parsed.value.value)
  }

  /** The checks as the source writes them: a parse failure or a value
      compared below the lower or above the upper bound is rejected. A NaN
      compares neither below nor above, so it gets through. */
  function GetLocationFromUserAsWritten(latText: Option<string>, lonText: Option<string>,
                                        tryParse: string -> Option<Double>): (r: Result<GeoCoordinate, CoordinateError>)
    ensures r == Failure(EmptyInput) <==> latText.None? || lonText.None?
    ensures r.Success? ==>
              && latText.Some? && lonText.Some?
              && tryParse(latText.value) == Some(r.value.latitude)
              && tryParse(lonText.value) == Some(r.value.longitude)
              && !Below(r.value.latitude, -90.0) && !Above(r.value.latitude, 90.0)
              && !Below(r.value.longitude, -180.0) && !Above(r.value.longitude, 180.0)
  {
    if latText.None? || lonText.None? then Failure(EmptyInput)
    else
      var lat := tryParse(latText.value);
      if lat.None? || Below(lat.value, -90.0) || Above(lat.value, 90.0) then Failure(InvalidLatitude)
      else
        var lon := tryParse(lonText.value);
        if lon.None? || Below(lon.value, -180.0) || Above(lon.value, 180.0) then Failure(InvalidLongitude)
        else Success(GeoCoordinate(lat.value, lon.value))
  }

  /** The source accepts the text "NaN" (which `double.TryParse` reads as
      NaN) as a latitude and as a longitude, though neither lies in its
      range. */
  lemma NaNAcceptedAsWritten(tryParse: string -> Option<Double>)
    requires tryParse("NaN") == Some(NaN)
    ensures GetLocationFromUserAsWritten(Some("NaN"), Some("NaN"), tryParse) == Success(GeoCoordinate(NaN, NaN))
  {
  }

  /** The checks as intended: each text must parse to a number within its
      inclusive range, the latitude checked first. */
  function GetLocationFromUser(latText: Option<string>, lonText: Option<string>,
                               tryParse: string -> Option<Double>): (r: Result<Coordinate, CoordinateError>)
    ensures r.Success? ==> Valid(r.value)
    ensures r.Success? ==>
              && latText.Some? && lonText.Some?
              && tryParse(latText.value) == Some(Finite(r.value.latitude))
              && tryParse(lonText.value) == Some(Finite(r.value.longitude))
    ensures r == Failure(EmptyInput) <==> latText.None? || lonText.None?
    ensures r == Failure(InvalidLatitude) <==>
              latText.Some? && lonText.Some? && !Accepted(tryParse(latText.value), ValidLatitude)
    ensures r == Failure(InvalidLongitude) <==>
              && latText.Some? && lonText.Some?
              && Accepted(tryParse(latText.value), ValidLatitude)
              && !Accepted(tryParse(lonText.value), ValidLongitude)
  {
    if latText.None? || lonText.None? then Failure(EmptyInput)
    else
      var lat := tryParse(latText.value);
      if !lat.Some? || !lat.value.Finite? || lat.value.value < -90.0 || lat.value.value > 90.0 then
        Failure(InvalidLatitude)
      else
        var lon := tryParse(lonText.value);
        if !lon.Some? || !lon.value.Finite? || lon.value.value < -180.0 || lon.value.value > 180.0 then
          Failure(InvalidLongitude)
        else Success(Coordinate(lat.value.value, lon.value.value))
  }

  /** Round trip: any in-range coordinate whose two texts parse to its two
      components is accepted, and exactly that coordinate comes back. */
  lemma AcceptsEveryValidCoordinate(c: Coordinate, latText: string, lonText: string,
                                    tryParse: string -> Option<Double>)
    requires Valid(c)
    requires tryParse(latText) == Some(Finite(c.latitude))
    requires tryParse(lonText) == Some(Finite(c.longitude))
    ensures GetLocationFromUser(Some(latText), Some(lonText), tryParse) == Success(c)
  {
  }

  predicate IsNaN(parsed: Option<Double>)
  {
    parsed == Some(NaN)
  }

  /** The intended checks differ from the written ones only on NaN: when no
      text parses to NaN, both reject with the same error or both accept the
      same coordinate. */
  lemma AgreesWithSourceUnlessNaN(latText: Option<string>, lonText: Option<string>,
                                  tryParse: string -> Option<Double>)
    requires latText.Some? ==> !IsNaN(tryParse(latText.value))
    requires lonText.Some? ==> !IsNaN(tryParse(lonText.value))
    ensures match GetLocationFromUser(latText, lonText, tryParse)
      case Success(c) =>
        GetLocationFromUserAsWritten(latText, lonText, tryParse)
          == Success(GeoCoordinate(Finite(c.latitude), Finite(c.longitude)))
      case Failure(e) =>
        GetLocationFromUserAsWritten(latText, lonText, tryParse) == Failure(e)
  {
  }
}
