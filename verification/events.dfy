/**
 * The event records the processors publish. Each kind fixes its own default
 * name; every field has the default value the record declares.
 */
module DetectionEvents {
  import opened Geometry

  const ZeroBox: BBox := BBox(0, 0, 0, 0)

  datatype VisionEvent =
    | Base(name: string, frameNumber: int := 0, timestamp: real := 0.0)
    | ObjectDetected(name: string := "ObjectDetected", frameNumber: int := 0, timestamp: real := 0.0,
                     objects: seq<Detection> := [])
    | FallDetected(name: string := "FallDetected", frameNumber: int := 0, timestamp: real := 0.0,
                   confidence: real := 0.0, bbox: BBox := ZeroBox)
    | FaceRecognized(name: string := "FaceRecognized", frameNumber: int := 0, timestamp: real := 0.0,
                     personName: string := "unknown", confidence: real := 0.0, bbox: BBox := ZeroBox)
    | ToddlerDetected(name: string := "ToddlerDetected", frameNumber: int := 0, timestamp: real := 0.0,
                      confidence: real := 0.0, bbox: BBox := ZeroBox)
    | CryDetected(name: string := "CryDetected", frameNumber: int := 0, timestamp: real := 0.0,
                  confidence: real := 0.0)
    | EdgeProximity(name: string := "EdgeProximity", frameNumber: int := 0, timestamp: real := 0.0,
                    childBox: BBox := ZeroBox, edgeLocation: string := "unknown", distancePx: real := 0.0)
    | DangerZoneViolation(name: string := "DangerZoneViolation", frameNumber: int := 0, timestamp: real := 0.0,
                          zoneId: string := "unknown", objectLabel: string := "person")
    | DangerObjectNearby(name: string := "DangerObjectNearby", frameNumber: int := 0, timestamp: real := 0.0,
                         objectLabel: string := "unknown", childBox: BBox := ZeroBox, distancePx: real := 0.0)

  /** Every kind, built with its defaults, starts at frame 0 and time 0 and carries its own name. */
  lemma EventDefaults()
    ensures Base("x").frameNumber == 0 && Base("x").timestamp == 0.0
    ensures ObjectDetected().name == "ObjectDetected" && ObjectDetected().objects == []
            && ObjectDetected().frameNumber == 0 && ObjectDetected().timestamp == 0.0
    ensures FallDetected().name == "FallDetected" && FallDetected().frameNumber == 0
            && FallDetected().timestamp == 0.0
    ensures FallDetected().confidence == 0.0 && FallDetected().bbox == BBox(0, 0, 0, 0)
    ensures FaceRecognized().name == "FaceRecognized" && FaceRecognized().personName == "unknown"
            && FaceRecognized().frameNumber == 0 && FaceRecognized().timestamp == 0.0
            && FaceRecognized().confidence == 0.0 && FaceRecognized().bbox == BBox(0, 0, 0, 0)
    ensures ToddlerDetected().name == "ToddlerDetected" && ToddlerDetected().bbox == BBox(0, 0, 0, 0)
            && ToddlerDetected().frameNumber == 0 && ToddlerDetected().timestamp == 0.0
            && ToddlerDetected().confidence == 0.0
    ensures CryDetected().name == "CryDetected" && CryDetected().confidence == 0.0
            && CryDetected().frameNumber == 0 && CryDetected().timestamp == 0.0
    ensures EdgeProximity().name == "EdgeProximity" && EdgeProximity().edgeLocation == "unknown"
            && EdgeProximity().frameNumber == 0 && EdgeProximity().timestamp == 0.0
            && EdgeProximity().childBox == BBox(0, 0, 0, 0) && EdgeProximity().distancePx == 0.0
    ensures DangerZoneViolation().name == "DangerZoneViolation" && DangerZoneViolation().objectLabel == "person"
            && DangerZoneViolation().frameNumber == 0 && DangerZoneViolation().timestamp == 0.0
            && DangerZoneViolation().zoneId == "unknown"
    ensures DangerObjectNearby().name == "DangerObjectNearby" && DangerObjectNearby().objectLabel == "unknown"
            && DangerObjectNearby().frameNumber == 0 && DangerObjectNearby().timestamp == 0.0
            && DangerObjectNearby().childBox == BBox(0, 0, 0, 0) && DangerObjectNearby().distancePx == 0.0
  {
  }
}
