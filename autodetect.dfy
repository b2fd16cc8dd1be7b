/**
  The two capabilities the configuration detects. The autodetect package that
  declares them is not part of this model: the values below are assumed. The
  lemmas about passes and options hold whichever values exist. The
  probes are not part of this model either: their outcomes are inputs (see
  Detection.Answers).
 */
module AutoDetect {

  /** Availability of the OpenShift Routes API. */
  datatype OpenShiftRoutesAvailability =
    | RoutesAvailable
    | RoutesNotAvailable
    | RoutesAvailabilityUnknown

  /** The preferred version of the autoscaling (HPA) API. */
  datatype AutoscalingVersion =
    | AutoscalingV2
    | AutoscalingV2Beta2
    | AutoscalingUnknown

  /** The autoscaling version a configuration starts with when no option sets one (assumed to be v2). */
  const DefaultAutoscalingVersion: AutoscalingVersion := AutoscalingV2
}
