/**
 `json_to_roi` after decoding: the configuration is a map from keys to decoded
 JSON values. The keys are checked in a fixed order and the `type` entry picks
 the ROI class whose constructor receives the remaining entries.
 */
module Io {
  import opened Wrappers
  import opened Values
  import opened Rois

  const Rectangle: Value := Text("rectangle")
  const Cylinder: Value := Text("cylinder")
  const SphereTag: Value := Text("sphere")

  /** `json_to_roi` from line 30 onwards, on an already-decoded configuration. */
  function JsonToRoi(config: map<string, Value>): (r: Result<Roi, Error>)
    ensures "type" !in config ==> r == Err(KeyError("type"))
    ensures "type" in config && "center" !in config ==> r == Err(KeyError("center"))
    ensures "type" in config && "center" in config && config["type"] !in [Rectangle, Cylinder, SphereTag] ==>
      r == Err(ValueError(UnknownType(config["type"])))
    ensures "type" in config && "center" in config && config["type"] == Rectangle ==>
      r == if "size" !in config then Err(KeyError("size")) else NewRect(config["size"], config["center"])
    ensures "type" in config && "center" in config && config["type"] == Cylinder ==>
      r == if "radius" !in config then Err(KeyError("radius"))
           else if "height" !in config then Err(KeyError("height"))
           else NewCyl(config["radius"], config["height"], config["center"])
    ensures "type" in config && "center" in config && config["type"] == SphereTag ==>
      r == if "radius" !in config then Err(KeyError("radius")) else NewSphere(config["radius"], config["center"])
    ensures r.Ok? ==> ValidRoi(r.value) && !r.value.Whole?
  {
    if "type" !in config then Err(KeyError("type"))
    else if "center" !in config then Err(KeyError("center"))
    else if config["type"] == Rectangle then
      if "size" !in config then Err(KeyError("size"))
      else NewRect(config["size"], config["center"])
    else if config["type"] == Cylinder then
      if "radius" !in config then Err(KeyError("radius"))
      else if "height" !in config then Err(KeyError("height"))
      else NewCyl(config["radius"], config["height"], config["center"])
    else if config["type"] == SphereTag then
      if "radius" !in config then Err(KeyError("radius"))
      else NewSphere(config["radius"], config["center"])
    else Err(ValueError(UnknownType(config["type"])))
  }

  /** A decoded ROI carries exactly the parameters of its configuration. */
  lemma DecodedParameters(config: map<string, Value>)
    requires JsonToRoi(config).Ok?
    ensures var roi := JsonToRoi(config).value;
      "type" in config && "center" in config && Components(roi.center) == config["center"].a.flat &&
      match roi
      case Rect(size, _) =>
        config["type"] == Rectangle && Components(size) == config["size"].a.flat
      case Cyl(radius, height, _) =>
        config["type"] == Cylinder && config["radius"] == Num(radius) && config["height"] == Num(height)
      case Sphere(radius, _) =>
        config["type"] == SphereTag && config["radius"] == Num(radius)
      case Whole => false
  {
  }

  /** The configuration an ROI is written as: its class name and its parameters. */
  function Encode(roi: Roi): map<string, Value>
    requires !roi.Whole?
  {
    match roi
    case Rect(size, center) =>
      map["type" := Rectangle, "size" := Array(ArrayOf(size)), "center" := Array(ArrayOf(center))]
    case Cyl(radius, height, center) =>
      map["type" := Cylinder, "radius" := Num(radius), "height" := Num(height), "center" := Array(ArrayOf(center))]
    case Sphere(radius, center) =>
      map["type" := SphereTag, "radius" := Num(radius), "center" := Array(ArrayOf(center))]
  }

  /** Every ROI the constructors can build is read back unchanged from its configuration. */
  lemma RoundTrip(roi: Roi)
    requires ValidRoi(roi) && !roi.Whole?
    ensures JsonToRoi(Encode(roi)) == Ok(roi)
  {
    var config := Encode(roi);
    assert Vec3Of(config["center"], "center") == Ok(roi.center);
    match roi
    case Rect(size, center) =>
      assert Vec3Of(config["size"], "size") == Ok(size);
    case Cyl(_, _, _) =>
    case Sphere(_, _) =>
  }
}
