/**
 * `util/StringToLatLng.kt`: reading a "latitude,longitude" text as coordinates. The number
 * parser (Kotlin's `String.toDouble`, which throws on malformed text) is the parameter
 * `parse`, returning None where the source would throw.
 */
module StringToLatLng {
  import opened Wrappers
  import opened Geo
  import opened Text

  /**
   * `convertStringToLatLng`: the text must split at commas into exactly two parts; each part
   * is trimmed and parsed, the first as the latitude and the second as the longitude. Any
   * other shape, or a part that does not parse, gives None.
   */
  function ConvertStringToLatLng(latLngString: string, parse: string -> Option<Double>): (r: Option<LatLng>)
    ensures Count(latLngString, ',') != 1 ==> r.None?
    ensures var parts := Split(latLngString, ',');
            r.Some? <==> |parts| == 2 && parse(Trim(parts[0])).Some? && parse(Trim(parts[1])).Some?
    ensures var parts := Split(latLngString, ',');
            r.Some? ==> Some(r.value.latitude) == parse(Trim(parts[0])) && Some(r.value.longitude) == parse(Trim(parts[1]))
  {
    var latLngArray := Split(latLngString, ',');
    if |latLngArray| != 2 then None
    else
      match (parse(Trim(latLngArray[0])), parse(Trim(latLngArray[1])))
      case (Some(latitude), Some(longitude)) => Some(LatLng(latitude, longitude))
      case _ => None
  }

  /** The empty text splits into one (empty) part, so it is rejected before anything is parsed. */
  lemma EmptyStringGivesNone(parse: string -> Option<Double>)
    ensures ConvertStringToLatLng("", parse) == None
  {
    SplitNoDelimiter("", ',');
  }

  /**
   * For two comma-free parts joined by one comma, the result is exactly the pair of their
   * trimmed parses, latitude first.
   */
  lemma {:induction false} TwoParts(a: string, b: string, parse: string -> Option<Double>)
    requires ',' !in a && ',' !in b
    ensures ConvertStringToLatLng(a + "," + b, parse)
            == if parse(Trim(a)).Some? && parse(Trim(b)).Some?
               then Some(LatLng(parse(Trim(a)).value, parse(Trim(b)).value)) else None
  {
    assert a + "," + b == a + ([','] + b);
    SplitPrefix(a, b, ',');
    SplitNoDelimiter(b, ',');
    assert Split(a + "," + b, ',') == [a, b];
  }

  /** Swapping the two parts swaps latitude and longitude. */
  lemma {:induction false} PartOrderMatters(a: string, b: string, parse: string -> Option<Double>)
    requires ',' !in a && ',' !in b
    requires ConvertStringToLatLng(a + "," + b, parse).Some?
    ensures ConvertStringToLatLng(b + "," + a, parse).Some?
    ensures ConvertStringToLatLng(b + "," + a, parse).value.latitude == ConvertStringToLatLng(a + "," + b, parse).value.longitude
    ensures ConvertStringToLatLng(b + "," + a, parse).value.longitude == ConvertStringToLatLng(a + "," + b, parse).value.latitude
  {
    TwoParts(a, b, parse);
    TwoParts(b, a, parse);
  }
}
